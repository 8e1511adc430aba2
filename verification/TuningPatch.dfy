/**
 * The tuning patch of the embedded model: a request clears some knobs, sets others and leaves the rest, over
 * fourteen knobs of which two are composite and one is a list. Two more settings exist only in the file.
 */
module TuningPatch {
  import opened Wrappers
  import Text

  datatype Knob =
    | Context | KVCacheType | Offload | Fit | FitTargetMiB | FitMinContext | KVOffload | MMProjOffload
    | Packing | Parallel | CacheRAMMiB | HostReserveGiB | Devices | SplitMode

  datatype ContextConfig = ContextConfig(mode: Option<string>, tokens: Option<int>)

  datatype OffloadConfig = OffloadConfig(mode: Option<string>, layers: Option<int>)

  /** The stored section. An empty device list is an unset one. */
  datatype Section = Section(
    context: ContextConfig,
    kvCacheType: Option<string>,
    offload: OffloadConfig,
    fit: Option<bool>,
    fitTargetMiB: Option<int>,
    fitMinContext: Option<int>,
    kvOffload: Option<bool>,
    mmprojOffload: Option<bool>,
    packing: Option<string>,
    parallel: Option<int>,
    cacheRAMMiB: Option<int>,
    hostReserveGiB: Option<real>,
    devices: seq<string>,
    splitMode: Option<string>,
    ctxCheckpoints: Option<int>,
    cacheIdleSlots: Option<bool>)

  /** A request: the keys to clear, and a value for each knob it sets. */
  datatype Request = Request(
    reset: seq<string>,
    context: Option<ContextConfig>,
    kvCacheType: Option<string>,
    offload: Option<OffloadConfig>,
    fit: Option<bool>,
    fitTargetMiB: Option<int>,
    fitMinContext: Option<int>,
    kvOffload: Option<bool>,
    mmprojOffload: Option<bool>,
    packing: Option<string>,
    parallel: Option<int>,
    cacheRAMMiB: Option<int>,
    hostReserveGiB: Option<real>,
    devices: Option<seq<string>>,
    splitMode: Option<string>)

  function KeyOf(k: Knob): string {
    match k
    case Context => "context"
    case KVCacheType => "kv_cache_type"
    case Offload => "offload"
    case Fit => "fit"
    case FitTargetMiB => "fit_target_mib"
    case FitMinContext => "fit_min_context"
    case KVOffload => "kv_offload"
    case MMProjOffload => "mmproj_offload"
    case Packing => "packing"
    case Parallel => "parallel"
    case CacheRAMMiB => "cache_ram_mib"
    case HostReserveGiB => "host_reserve_gib"
    case Devices => "devices"
    case SplitMode => "split_mode"
  }

  /** In declaration order. */
  const KNOBS: seq<Knob> := [
    Context, KVCacheType, Offload, Fit, FitTargetMiB, FitMinContext, KVOffload, MMProjOffload,
    Packing, Parallel, CacheRAMMiB, HostReserveGiB, Devices, SplitMode]

  /** One knob's value, whatever its type. */
  datatype Value =
    | Unset
    | Sized(mode: Option<string>, amount: Option<int>)
    | Word(text: string)
    | Flag(on: bool)
    | Number(n: int)
    | Amount(gib: real)
    | Names(names: seq<string>)

  function SizedValue(mode: Option<string>, amount: Option<int>): Value {
    if mode.None? && amount.None? then Unset else Sized(mode, amount)
  }

  function WordValue(x: Option<string>): Value {
    if x.None? then Unset else Word(x.value)
  }

  function FlagValue(x: Option<bool>): Value {
    if x.None? then Unset else Flag(x.value)
  }

  function NumberValue(x: Option<int>): Value {
    if x.None? then Unset else Number(x.value)
  }

  function NamesValue(x: seq<string>): Value {
    if x == [] then Unset else Names(x)
  }

  function Get(t: Section, k: Knob): Value {
    match k
    case Context => SizedValue(t.context.mode, t.context.tokens)
    case KVCacheType => WordValue(t.kvCacheType)
    case Offload => SizedValue(t.offload.mode, t.offload.layers)
    case Fit => FlagValue(t.fit)
    case FitTargetMiB => NumberValue(t.fitTargetMiB)
    case FitMinContext => NumberValue(t.fitMinContext)
    case KVOffload => FlagValue(t.kvOffload)
    case MMProjOffload => FlagValue(t.mmprojOffload)
    case Packing => WordValue(t.packing)
    case Parallel => NumberValue(t.parallel)
    case CacheRAMMiB => NumberValue(t.cacheRAMMiB)
    case HostReserveGiB => if t.hostReserveGiB.None? then Unset else Amount(t.hostReserveGiB.value)
    case Devices => NamesValue(t.devices)
    case SplitMode => WordValue(t.splitMode)
  }

  /** The request sets this knob, possibly to nothing: an empty composite or an empty list. */
  predicate Sets(req: Request, k: Knob) {
    match k
    case Context => req.context.Some?
    case KVCacheType => req.kvCacheType.Some?
    case Offload => req.offload.Some?
    case Fit => req.fit.Some?
    case FitTargetMiB => req.fitTargetMiB.Some?
    case FitMinContext => req.fitMinContext.Some?
    case KVOffload => req.kvOffload.Some?
    case MMProjOffload => req.mmprojOffload.Some?
    case Packing => req.packing.Some?
    case Parallel => req.parallel.Some?
    case CacheRAMMiB => req.cacheRAMMiB.Some?
    case HostReserveGiB => req.hostReserveGiB.Some?
    case Devices => req.devices.Some?
    case SplitMode => req.splitMode.Some?
  }

  function Trimmed(names: seq<string>): (r: seq<string>)
    ensures |r| == |names|
    ensures forall i | 0 <= i < |names| :: r[i] == Text.TrimSpace(names[i])
  {
    seq(|names|, i requires 0 <= i < |names| => Text.TrimSpace(names[i]))
  }

  function Wanted(req: Request, k: Knob): Value
    requires Sets(req, k)
  {
    match k
    case Context => SizedValue(req.context.value.mode, req.context.value.tokens)
    case KVCacheType => WordValue(req.kvCacheType)
    case Offload => SizedValue(req.offload.value.mode, req.offload.value.layers)
    case Fit => FlagValue(req.fit)
    case FitTargetMiB => NumberValue(req.fitTargetMiB)
    case FitMinContext => NumberValue(req.fitMinContext)
    case KVOffload => FlagValue(req.kvOffload)
    case MMProjOffload => FlagValue(req.mmprojOffload)
    case Packing => WordValue(req.packing)
    case Parallel => NumberValue(req.parallel)
    case CacheRAMMiB => NumberValue(req.cacheRAMMiB)
    case HostReserveGiB => if req.hostReserveGiB.None? then Unset else Amount(req.hostReserveGiB.value)
    case Devices => NamesValue(Trimmed(req.devices.value))
    case SplitMode => WordValue(req.splitMode)
  }

  predicate Spells(key: string, k: Knob) {
    Text.TrimSpace(key) == KeyOf(k)
  }

  predicate KeyIn(reset: seq<string>, k: Knob) {
    exists key :: key in reset && Spells(key, k)
  }

  predicate Clears(req: Request, k: Knob) {
    KeyIn(req.reset, k)
  }

  predicate Known(key: string) {
    exists k: Knob :: Spells(key, k)
  }

  /** No unknown key, and no knob both cleared and set. */
  predicate Accepted(req: Request) {
    && (forall key | key in req.reset :: Known(key))
    && (forall k: Knob :: !(Clears(req, k) && Sets(req, k)))
  }

  /** What an accepted request makes of a section: every knob by its own rule, and the file-only settings untouched. */
  ghost predicate IsPatch(stored: Section, req: Request, next: Section) {
    && next.ctxCheckpoints == stored.ctxCheckpoints && next.cacheIdleSlots == stored.cacheIdleSlots
    && forall k: Knob ::
      Get(next, k) == if Clears(req, k) then Unset else if Sets(req, k) then Wanted(req, k) else Get(stored, k)
  }

  // ------------------------------------------------------------------------------------------------
  // What the rule determines
  // ------------------------------------------------------------------------------------------------

  lemma SameWords(a: Section, b: Section)
    requires Get(a, KVCacheType) == Get(b, KVCacheType) && Get(a, Packing) == Get(b, Packing)
    requires Get(a, SplitMode) == Get(b, SplitMode) && Get(a, Devices) == Get(b, Devices)
    ensures a.kvCacheType == b.kvCacheType && a.packing == b.packing && a.splitMode == b.splitMode && a.devices == b.devices
  {
  }

  lemma SameFlags(a: Section, b: Section)
    requires Get(a, Fit) == Get(b, Fit) && Get(a, KVOffload) == Get(b, KVOffload)
    requires Get(a, MMProjOffload) == Get(b, MMProjOffload)
    ensures a.fit == b.fit && a.kvOffload == b.kvOffload && a.mmprojOffload == b.mmprojOffload
  {
  }

  lemma SameNumbers(a: Section, b: Section)
    requires Get(a, FitTargetMiB) == Get(b, FitTargetMiB) && Get(a, FitMinContext) == Get(b, FitMinContext)
    requires Get(a, Parallel) == Get(b, Parallel) && Get(a, CacheRAMMiB) == Get(b, CacheRAMMiB)
    requires Get(a, HostReserveGiB) == Get(b, HostReserveGiB)
    ensures a.fitTargetMiB == b.fitTargetMiB && a.fitMinContext == b.fitMinContext
    ensures a.parallel == b.parallel && a.cacheRAMMiB == b.cacheRAMMiB && a.hostReserveGiB == b.hostReserveGiB
  {
  }

  lemma SameComposites(a: Section, b: Section)
    requires Get(a, Context) == Get(b, Context) && Get(a, Offload) == Get(b, Offload)
    ensures a.context == b.context && a.offload == b.offload
  {
  }

  /** A section is its fourteen values and its two file-only settings. */
  lemma SameValuesSameSection(a: Section, b: Section)
    requires forall k: Knob :: Get(a, k) == Get(b, k)
    requires a.ctxCheckpoints == b.ctxCheckpoints && a.cacheIdleSlots == b.cacheIdleSlots
    ensures a == b
  {
    SameWords(a, b);
    SameFlags(a, b);
    SameNumbers(a, b);
    SameComposites(a, b);
  }

  /** The same fields set, and the same knobs cleared: in any order, with any repetition and surrounding space. */
  ghost predicate SameRequest(r: Request, q: Request) {
    r == q.(reset := r.reset) && forall k: Knob :: Clears(r, k) <==> Clears(q, k)
  }

  /** One section and one set of wishes have one outcome, however the reset list spells them. */
  lemma PatchIsDetermined(stored: Section, r: Request, q: Request, a: Section, b: Section)
    requires SameRequest(r, q) && IsPatch(stored, r, a) && IsPatch(stored, q, b)
    ensures a == b
  {
    forall k: Knob ensures Get(a, k) == Get(b, k) {
      assert Clears(r, k) <==> Clears(q, k);
      SetsIgnoresReset(r, q, k);
    }
    SameValuesSameSection(a, b);
  }

  lemma SetsIgnoresReset(r: Request, q: Request, k: Knob)
    requires r == q.(reset := r.reset)
    ensures Sets(r, k) == Sets(q, k) && (Sets(r, k) ==> Wanted(r, k) == Wanted(q, k))
  {
  }

  /** Applying a request again changes nothing. */
  lemma PatchIsIdempotent(stored: Section, req: Request, once: Section, twice: Section)
    requires IsPatch(stored, req, once) && IsPatch(once, req, twice)
    ensures twice == once
  {
    SameValuesSameSection(once, twice);
  }

  // ------------------------------------------------------------------------------------------------
  // The rule, field by field
  // ------------------------------------------------------------------------------------------------

  /** The reset list names this key, with whatever space around it. */
  predicate Resets(req: Request, key: string) {
    exists x :: x in req.reset && Text.TrimSpace(x) == key
  }

  /** One field: cleared by its key, else set by its own field of the request, else as stored. */
  predicate Takes<T(==)>(req: Request, key: string, cleared: T, given: Option<T>, stored: T, next: T) {
    next == if Resets(req, key) then cleared else if given.Some? then given.value else stored
  }

  /** The same for a field that is itself optional. */
  predicate TakesOption<T(==)>(req: Request, key: string, given: Option<T>, stored: Option<T>, next: Option<T>) {
    next == if Resets(req, key) then None else if given.Some? then given else stored
  }

  predicate Ruled(stored: Section, req: Request, next: Section, k: Knob) {
    Get(next, k) == if Resets(req, KeyOf(k)) then Unset else if Sets(req, k) then Wanted(req, k) else Get(stored, k)
  }

  lemma KeyRule(stored: Section, req: Request, next: Section, k: Knob)
    requires IsPatch(stored, req, next)
    ensures Ruled(stored, req, next, k)
  {
    if x :| x in req.reset && Text.TrimSpace(x) == KeyOf(k) {
      assert Spells(x, k);
    }
  }

  ghost predicate WordsTaken(stored: Section, req: Request, next: Section) {
    && TakesOption(req, "kv_cache_type", req.kvCacheType, stored.kvCacheType, next.kvCacheType)
    && TakesOption(req, "packing", req.packing, stored.packing, next.packing)
    && TakesOption(req, "split_mode", req.splitMode, stored.splitMode, next.splitMode)
  }

  ghost predicate FlagsTaken(stored: Section, req: Request, next: Section) {
    && TakesOption(req, "fit", req.fit, stored.fit, next.fit)
    && TakesOption(req, "kv_offload", req.kvOffload, stored.kvOffload, next.kvOffload)
    && TakesOption(req, "mmproj_offload", req.mmprojOffload, stored.mmprojOffload, next.mmprojOffload)
  }

  ghost predicate LimitsTaken(stored: Section, req: Request, next: Section) {
    && TakesOption(req, "fit_target_mib", req.fitTargetMiB, stored.fitTargetMiB, next.fitTargetMiB)
    && TakesOption(req, "fit_min_context", req.fitMinContext, stored.fitMinContext, next.fitMinContext)
    && TakesOption(req, "parallel", req.parallel, stored.parallel, next.parallel)
  }

  ghost predicate MemoryTaken(stored: Section, req: Request, next: Section) {
    && TakesOption(req, "cache_ram_mib", req.cacheRAMMiB, stored.cacheRAMMiB, next.cacheRAMMiB)
    && TakesOption(req, "host_reserve_gib", req.hostReserveGiB, stored.hostReserveGiB, next.hostReserveGiB)
  }

  ghost predicate RestTaken(stored: Section, req: Request, next: Section) {
    && Takes(req, "context", ContextConfig(None, None), req.context, stored.context, next.context)
    && Takes(req, "offload", OffloadConfig(None, None), req.offload, stored.offload, next.offload)
    && Takes(req, "devices", [], if req.devices.Some? then Some(Trimmed(req.devices.value)) else None,
             stored.devices, next.devices)
  }

  lemma RuledWords(stored: Section, req: Request, next: Section)
    requires Ruled(stored, req, next, KVCacheType) && Ruled(stored, req, next, Packing) && Ruled(stored, req, next, SplitMode)
    ensures WordsTaken(stored, req, next)
  {
  }

  lemma RuledFlags(stored: Section, req: Request, next: Section)
    requires Ruled(stored, req, next, Fit) && Ruled(stored, req, next, KVOffload) && Ruled(stored, req, next, MMProjOffload)
    ensures FlagsTaken(stored, req, next)
  {
  }

  lemma RuledLimits(stored: Section, req: Request, next: Section)
    requires Ruled(stored, req, next, FitTargetMiB) && Ruled(stored, req, next, FitMinContext)
    requires Ruled(stored, req, next, Parallel)
    ensures LimitsTaken(stored, req, next)
  {
  }

  lemma RuledMemory(stored: Section, req: Request, next: Section)
    requires Ruled(stored, req, next, CacheRAMMiB) && Ruled(stored, req, next, HostReserveGiB)
    ensures MemoryTaken(stored, req, next)
  {
  }

  lemma RuledRest(stored: Section, req: Request, next: Section)
    requires Ruled(stored, req, next, Context) && Ruled(stored, req, next, Offload) && Ruled(stored, req, next, Devices)
    ensures RestTaken(stored, req, next)
  {
  }

  /** Each key clears its own field and no other, and each field takes its own wish. */
  lemma PatchedFieldByField(stored: Section, req: Request, next: Section)
    requires IsPatch(stored, req, next)
    ensures WordsTaken(stored, req, next) && FlagsTaken(stored, req, next) && LimitsTaken(stored, req, next)
    ensures MemoryTaken(stored, req, next) && RestTaken(stored, req, next)
  {
    forall k: Knob ensures Ruled(stored, req, next, k) {
      KeyRule(stored, req, next, k);
    }
    RuledWords(stored, req, next);
    RuledFlags(stored, req, next);
    RuledLimits(stored, req, next);
    RuledMemory(stored, req, next);
    RuledRest(stored, req, next);
  }

  /** The legal keys are the fourteen spellings above, whatever space surrounds them. */
  lemma KnownExactly(key: string)
    ensures Known(key) <==> Text.TrimSpace(key) in {
      "context", "kv_cache_type", "offload", "fit", "fit_target_mib", "fit_min_context", "kv_offload", "mmproj_offload",
      "packing", "parallel", "cache_ram_mib", "host_reserve_gib", "devices", "split_mode"}
  {
    forall k: Knob ensures Spells(key, k) <==> Text.TrimSpace(key) == KeyOf(k) {
    }
    if Text.TrimSpace(key) in {"context", "kv_cache_type", "offload", "fit"} {
      assert Spells(key, Context) || Spells(key, KVCacheType) || Spells(key, Offload) || Spells(key, Fit);
    } else if Text.TrimSpace(key) in {"fit_target_mib", "fit_min_context", "kv_offload", "mmproj_offload", "packing"} {
      assert Spells(key, FitTargetMiB) || Spells(key, FitMinContext) || Spells(key, KVOffload)
             || Spells(key, MMProjOffload) || Spells(key, Packing);
    } else if Text.TrimSpace(key) in {"parallel", "cache_ram_mib", "host_reserve_gib", "devices", "split_mode"} {
      assert Spells(key, Parallel) || Spells(key, CacheRAMMiB) || Spells(key, HostReserveGiB) || Spells(key, Devices)
             || Spells(key, SplitMode);
    }
  }

  // ------------------------------------------------------------------------------------------------
  // Every section can be reached
  // ------------------------------------------------------------------------------------------------

  lemma KeyOfInjective(j: Knob, k: Knob)
    requires KeyOf(j) == KeyOf(k)
    ensures j == k
  {
    assert |KeyOf(j)| == |KeyOf(k)| && KeyOf(j)[0] == KeyOf(k)[0];
  }

  lemma AllKnobs(k: Knob)
    ensures k in KNOBS
  {
    assert KNOBS[0] == Context && KNOBS[1] == KVCacheType && KNOBS[2] == Offload && KNOBS[3] == Fit;
    assert KNOBS[4] == FitTargetMiB && KNOBS[5] == FitMinContext && KNOBS[6] == KVOffload && KNOBS[7] == MMProjOffload;
    assert KNOBS[8] == Packing && KNOBS[9] == Parallel && KNOBS[10] == CacheRAMMiB && KNOBS[11] == HostReserveGiB;
    assert KNOBS[12] == Devices && KNOBS[13] == SplitMode;
  }

  /** Keys carry no surrounding space, so each spells its own knob and no other. */
  lemma KeySpells(j: Knob, k: Knob)
    ensures Spells(KeyOf(j), k) <==> j == k
  {
    var key := KeyOf(j);
    assert !Text.IsSpace(key[0]) && !Text.IsSpace(key[|key| - 1]);
    Text.TrimSpaceFixed(key);
    if Spells(key, k) {
      KeyOfInjective(j, k);
    }
  }

  /** The keys of the knobs that a section leaves unset. */
  function UnsetKeys(t: Section, knobs: seq<Knob>): (keys: seq<string>)
  {
    if knobs == [] then []
    else (if Get(t, knobs[0]).Unset? then [KeyOf(knobs[0])] else []) + UnsetKeys(t, knobs[1..])
  }

  lemma {:induction false} UnsetKeysSpell(t: Section, knobs: seq<Knob>, k: Knob)
    ensures KeyIn(UnsetKeys(t, knobs), k) <==> k in knobs && Get(t, k).Unset?
    ensures forall key | key in UnsetKeys(t, knobs) :: Known(key)
  {
    if knobs != [] {
      UnsetKeysSpell(t, knobs[1..], k);
      KeySpells(knobs[0], k);
      KeySpells(knobs[0], knobs[0]);
      var keys, rest := UnsetKeys(t, knobs), UnsetKeys(t, knobs[1..]);
      assert forall key :: key in keys <==> key in rest || (Get(t, knobs[0]).Unset? && key == KeyOf(knobs[0]));
    }
  }

  /** The request that spells a whole section out: its values set, its unset knobs cleared. */
  function Spelling(t: Section): Request {
    Request(
      UnsetKeys(t, KNOBS),
      if Get(t, Context).Unset? then None else Some(t.context),
      t.kvCacheType,
      if Get(t, Offload).Unset? then None else Some(t.offload),
      t.fit, t.fitTargetMiB, t.fitMinContext, t.kvOffload, t.mmprojOffload, t.packing, t.parallel, t.cacheRAMMiB,
      t.hostReserveGiB,
      if t.devices == [] then None else Some(t.devices),
      t.splitMode)
  }

  lemma SpellingClears(t: Section, k: Knob)
    ensures Clears(Spelling(t), k) <==> Get(t, k).Unset?
    ensures Sets(Spelling(t), k) <==> !Get(t, k).Unset?
  {
    AllKnobs(k);
    UnsetKeysSpell(t, KNOBS, k);
  }

  predicate TrimmedDevices(t: Section) {
    forall i | 0 <= i < |t.devices| :: Text.TrimSpace(t.devices[i]) == t.devices[i]
  }

  lemma SpellingWants(t: Section, k: Knob)
    requires TrimmedDevices(t) && Sets(Spelling(t), k)
    ensures Wanted(Spelling(t), k) == Get(t, k)
  {
    if k.Devices? {
      assert Trimmed(t.devices) == t.devices;
    }
  }

  /** From any section to any other with trimmed device names and the same file-only settings, one accepted request. */
  lemma EverySectionIsReachable(from: Section, to: Section)
    requires TrimmedDevices(to) && from.ctxCheckpoints == to.ctxCheckpoints && from.cacheIdleSlots == to.cacheIdleSlots
    ensures Accepted(Spelling(to)) && IsPatch(from, Spelling(to), to)
  {
    var req := Spelling(to);
    forall k: Knob
      ensures !(Clears(req, k) && Sets(req, k))
      ensures Get(to, k) == if Clears(req, k) then Unset else if Sets(req, k) then Wanted(req, k) else Get(from, k)
    {
      SpellingClears(to, k);
      if Sets(req, k) {
        SpellingWants(to, k);
      }
    }
    UnsetKeysSpell(to, KNOBS, Context);
  }

  /** And only those: no request changes a file-only setting or stores an untrimmed name. */
  lemma PatchesReachNoOthers(stored: Section, req: Request, next: Section)
    requires IsPatch(stored, req, next)
    ensures next.ctxCheckpoints == stored.ctxCheckpoints && next.cacheIdleSlots == stored.cacheIdleSlots
    ensures TrimmedDevices(stored) ==> TrimmedDevices(next)
  {
    assert Get(next, Devices) ==
           if Clears(req, Devices) then Unset else if Sets(req, Devices) then Wanted(req, Devices) else Get(stored, Devices);
    if req.devices.Some? {
      forall i | 0 <= i < |req.devices.value|
        ensures Text.TrimSpace(Trimmed(req.devices.value)[i]) == Trimmed(req.devices.value)[i]
      {
        Text.TrimSpaceTwice(req.devices.value[i]);
      }
    }
  }

  // ------------------------------------------------------------------------------------------------
  // The call
  // ------------------------------------------------------------------------------------------------

  datatype PatchError = UnknownKnob(key: string) | Contradiction(knobs: set<Knob>)

  /** The knob with this trimmed key, by the list of legal keys. */
  method Lookup(trimmed: string) returns (named: Option<Knob>)
    ensures named.Some? ==> KeyOf(named.value) == trimmed
    ensures named.None? ==> forall k: Knob :: KeyOf(k) != trimmed
  {
    for i := 0 to |KNOBS|
      invariant forall j | 0 <= j < i :: KeyOf(KNOBS[j]) != trimmed
    {
      if KeyOf(KNOBS[i]) == trimmed {
        return Some(KNOBS[i]);
      }
    }
    forall k: Knob ensures KeyOf(k) != trimmed {
      AllKnobs(k);
    }
    named := None;
  }

  /** One more key names one more knob. */
  lemma KeyInAppend(reset: seq<string>, key: string, named: Knob, k: Knob)
    requires Spells(key, named)
    ensures KeyIn(reset + [key], k) <==> KeyIn(reset, k) || k == named
  {
    if Spells(key, k) {
      KeyOfInjective(k, named);
    }
    assert forall x :: x in reset + [key] <==> x in reset || x == key;
  }

  predicate FirstUnknown(req: Request, i: int) {
    0 <= i < |req.reset| && !Known(req.reset[i]) && forall key | key in req.reset[..i] :: Known(key)
  }

  /** The knobs the reset list names, or its first unknown key. */
  method ResetKnobs(req: Request) returns (r: Result<set<Knob>, PatchError>)
    ensures r.Ok? ==> forall k: Knob :: k in r.value <==> Clears(req, k)
    ensures r.Ok? <==> forall key | key in req.reset :: Known(key)
    ensures r.Err? ==> r.error.UnknownKnob? && exists i :: FirstUnknown(req, i) && req.reset[i] == r.error.key
  {
    var reset: set<Knob> := {};
    for i := 0 to |req.reset|
      invariant forall k: Knob :: k in reset <==> KeyIn(req.reset[..i], k)
      invariant forall key | key in req.reset[..i] :: Known(key)
    {
      var key := req.reset[i];
      assert req.reset[..i + 1] == req.reset[..i] + [key];
      var named := Lookup(Text.TrimSpace(key));
      if named.None? {
        assert forall k: Knob :: !Spells(key, k);
        assert FirstUnknown(req, i);
        return Err(UnknownKnob(key));
      }
      assert Spells(key, named.value);
      forall k: Knob ensures KeyIn(req.reset[..i + 1], k) <==> KeyIn(req.reset[..i], k) || k == named.value {
        KeyInAppend(req.reset[..i], key, named.value, k);
      }
      reset := reset + {named.value};
    }
    assert req.reset[..|req.reset|] == req.reset;
    r := Ok(reset);
  }

  method Contradictions(req: Request, reset: set<Knob>) returns (bad: set<Knob>)
    ensures forall k: Knob :: k in bad <==> k in reset && Sets(req, k)
  {
    bad := {};
    var todo := reset;
    while todo != {}
      invariant todo <= reset
      invariant forall k: Knob :: k in bad <==> k in reset && k !in todo && Sets(req, k)
      decreases |todo|
    {
      var k :| k in todo;
      if Sets(req, k) {
        bad := bad + {k};
      }
      todo := todo - {k};
    }
  }

  function Cleared(t: Section, k: Knob): Section {
    match k
    case Context => t.(context := ContextConfig(None, None))
    case KVCacheType => t.(kvCacheType := None)
    case Offload => t.(offload := OffloadConfig(None, None))
    case Fit => t.(fit := None)
    case FitTargetMiB => t.(fitTargetMiB := None)
    case FitMinContext => t.(fitMinContext := None)
    case KVOffload => t.(kvOffload := None)
    case MMProjOffload => t.(mmprojOffload := None)
    case Packing => t.(packing := None)
    case Parallel => t.(parallel := None)
    case CacheRAMMiB => t.(cacheRAMMiB := None)
    case HostReserveGiB => t.(hostReserveGiB := None)
    case Devices => t.(devices := [])
    case SplitMode => t.(splitMode := None)
  }

  /** Clearing a knob unsets it and no other. */
  lemma ClearedMeans(t: Section, k: Knob, j: Knob)
    ensures Get(Cleared(t, k), j) == if j == k then Unset else Get(t, j)
    ensures Cleared(t, k).ctxCheckpoints == t.ctxCheckpoints && Cleared(t, k).cacheIdleSlots == t.cacheIdleSlots
  {
  }

  /** The reset keys are visited in no particular order. */
  method ApplyResets(stored: Section, reset: set<Knob>) returns (next: Section)
    ensures next.ctxCheckpoints == stored.ctxCheckpoints && next.cacheIdleSlots == stored.cacheIdleSlots
    ensures forall k: Knob :: Get(next, k) == if k in reset then Unset else Get(stored, k)
  {
    next := stored;
    var todo := reset;
    while todo != {}
      invariant todo <= reset
      invariant next.ctxCheckpoints == stored.ctxCheckpoints && next.cacheIdleSlots == stored.cacheIdleSlots
      invariant forall k: Knob :: Get(next, k) == if k in reset && k !in todo then Unset else Get(stored, k)
      decreases |todo|
    {
      var k :| k in todo;
      forall j: Knob ensures Get(Cleared(next, k), j) == if j == k then Unset else Get(next, j) {
        ClearedMeans(next, k, j);
      }
      ClearedMeans(next, k, k);
      next := Cleared(next, k);
      todo := todo - {k};
    }
  }

  /** The setters, each field on its own: what the request gives, else what is there. */
  function Folded(base: Section, req: Request): Section {
    Section(
      if req.context.Some? then req.context.value else base.context,
      if req.kvCacheType.Some? then req.kvCacheType else base.kvCacheType,
      if req.offload.Some? then req.offload.value else base.offload,
      if req.fit.Some? then req.fit else base.fit,
      if req.fitTargetMiB.Some? then req.fitTargetMiB else base.fitTargetMiB,
      if req.fitMinContext.Some? then req.fitMinContext else base.fitMinContext,
      if req.kvOffload.Some? then req.kvOffload else base.kvOffload,
      if req.mmprojOffload.Some? then req.mmprojOffload else base.mmprojOffload,
      if req.packing.Some? then req.packing else base.packing,
      if req.parallel.Some? then req.parallel else base.parallel,
      if req.cacheRAMMiB.Some? then req.cacheRAMMiB else base.cacheRAMMiB,
      if req.hostReserveGiB.Some? then req.hostReserveGiB else base.hostReserveGiB,
      if req.devices.Some? then Trimmed(req.devices.value) else base.devices,
      if req.splitMode.Some? then req.splitMode else base.splitMode,
      base.ctxCheckpoints,
      base.cacheIdleSlots)
  }

  /** Each knob takes its own field of the request and no other. */
  lemma FoldedMeans(base: Section, req: Request, k: Knob)
    ensures Get(Folded(base, req), k) == if Sets(req, k) then Wanted(req, k) else Get(base, k)
  {
  }

  /** An accepted request patches; a refused one names its unknown key, or every knob it both clears and sets. */
  method ApplyEmbeddedTuningRequest(stored: Section, req: Request) returns (r: Result<Section, PatchError>)
    ensures r.Ok? <==> Accepted(req)
    ensures r.Ok? ==> IsPatch(stored, req, r.value)
    ensures r.Err? && r.error.UnknownKnob? ==> exists i :: FirstUnknown(req, i) && req.reset[i] == r.error.key
    ensures r.Err? && r.error.Contradiction? ==>
      (forall key | key in req.reset :: Known(key)) && forall k: Knob :: k in r.error.knobs <==> Clears(req, k) && Sets(req, k)
  {
    var reset := ResetKnobs(req);
    if reset.Err? {
      return Err(reset.error);
    }
    var bad := Contradictions(req, reset.value);
    if bad != {} {
      var k :| k in bad;
      assert Clears(req, k) && Sets(req, k);
      return Err(Contradiction(bad));
    }
    var next := ApplyResets(stored, reset.value);
    forall k: Knob ensures Get(Folded(next, req), k) == if Sets(req, k) then Wanted(req, k) else Get(next, k) {
      FoldedMeans(next, req, k);
    }
    r := Ok(Folded(next, req));
  }

  datatype SaveError = NotInitialized | Refused(patch: PatchError) | Invalid | NotSaved

  class FrontendAPI {
    var loaded: bool
    var tuning: Section
    var saves: nat

    constructor (tuning: Section)
      ensures loaded && this.tuning == tuning && saves == 0
    {
      loaded, this.tuning, saves := true, tuning, 0;
    }

    /** `valid` is the check a configuration load would make; a patch that moves nothing is not written. */
    method SetEmbeddedLLMTuning(req: Request, valid: Section -> bool, saveOk: bool) returns (r: Result<(), SaveError>)
      modifies this`tuning, this`saves
      ensures r.Err? ==> tuning == old(tuning) && saves == old(saves)
      ensures r.Ok? ==> loaded && Accepted(req) && valid(tuning) && IsPatch(old(tuning), req, tuning)
      ensures r.Ok? ==> saves == old(saves) + if tuning == old(tuning) then 0 else 1
      ensures r.Err? && r.error.Refused? <==> loaded && !Accepted(req)
      ensures loaded && Accepted(req) ==>
        (exists next :: IsPatch(old(tuning), req, next) && (r == Err(Invalid) <==> !valid(next))
                        && (r == Err(NotSaved) <==> valid(next) && next != old(tuning) && !saveOk))
    {
      if !loaded {
        return Err(NotInitialized);
      }
      var stored := tuning;
      var patched := ApplyEmbeddedTuningRequest(stored, req);
      if patched.Err? {
        return Err(Refused(patched.error));
      }
      var next := patched.value;
      if !valid(next) {
        return Err(Invalid);
      }
      if next == stored {
        return Ok(());
      }
      tuning := next;
      if !saveOk {
        tuning := stored;
        return Err(NotSaved);
      }
      saves := saves + 1;
      r := Ok(());
    }
  }
}
