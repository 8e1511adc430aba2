/**
 * Per-model overrides: the dialog saves a full set of values, the configuration keeps only those that differ from
 * the model's built-in ones, and reading fills the rest in again.
 */
module ModelOverrides {
  import opened Wrappers

  /** The largest context window the configuration's validation accepts: 1 << 24. */
  const MAX_CONTEXT_WINDOW: int := 16777216

  const TOKENIZER_TYPES: set<string> := {"approximate", "tiktoken/o200k_base", "tiktoken/cl100k_base", "anthropic-api"}

  /** A model's parameters in full, as its built-in resolution gives them and as a reader sees them. */
  datatype Values<Caps> = Values(
    contextWindow: int,
    outputLimit: int,
    tokenizer: string,
    family: string,
    protocol: string,
    caps: Caps)

  /** A stored entry: 0, "" and None mean "inherit". The dialog has no editor for the timeout. */
  datatype Override<Caps> = Override(
    contextWindow: int,
    outputLimit: int,
    tokenizer: string,
    family: string,
    protocol: string,
    caps: Option<Caps>,
    requestTimeout: int)

  datatype Request<Caps> = Request(
    contextWindow: int,
    outputLimit: int,
    tokenizer: string,
    family: string,
    protocol: string,
    caps: Option<Caps>)

  /** What the llm package supplies: the built-in values of every model, and the names it knows. */
  datatype Catalog<!Caps> = Catalog(builtIn: string -> Values<Caps>, families: set<string>, protocols: set<string>)

  function Read<Caps>(def: Values<Caps>, entry: Option<Override<Caps>>): Values<Caps> {
    if entry.None? then def
    else
      var o := entry.value;
      Values(
        if o.contextWindow > 0 then o.contextWindow else def.contextWindow,
        if o.outputLimit > 0 then o.outputLimit else def.outputLimit,
        if o.tokenizer != "" then o.tokenizer else def.tokenizer,
        if o.family != "" then o.family else def.family,
        if o.protocol != "" then o.protocol else def.protocol,
        if o.caps.Some? then o.caps.value else def.caps)
  }

  /** The values a request asks for: an empty name and absent capabilities ask for the built-in ones. */
  function Asked<Caps>(def: Values<Caps>, req: Request<Caps>): Values<Caps> {
    Values(
      req.contextWindow,
      req.outputLimit,
      if req.tokenizer == "" then def.tokenizer else req.tokenizer,
      if req.family == "" then def.family else req.family,
      if req.protocol == "" then def.protocol else req.protocol,
      if req.caps.None? then def.caps else req.caps.value)
  }

  /** The dialog sends back what it was shown. */
  function Shown<Caps>(v: Values<Caps>): Request<Caps> {
    Request(v.contextWindow, v.outputLimit, v.tokenizer, v.family, v.protocol, Some(v.caps))
  }

  predicate Accepted<Caps>(c: Catalog<Caps>, req: Request<Caps>) {
    && 1 <= req.contextWindow <= MAX_CONTEXT_WINDOW && 1 <= req.outputLimit
    && (req.tokenizer == "" || req.tokenizer in TOKENIZER_TYPES)
    && (req.family == "" || req.family in c.families)
    && (req.protocol == "" || req.protocol in c.protocols)
  }

  /** No stored field repeats the built-in value, and the entry says something. */
  predicate Canonical<Caps(==)>(def: Values<Caps>, entry: Option<Override<Caps>>) {
    entry.Some? ==>
      var o := entry.value;
      && o.contextWindow != def.contextWindow && o.outputLimit != def.outputLimit
      && (o.tokenizer != "" ==> o.tokenizer != def.tokenizer)
      && (o.family != "" ==> o.family != def.family)
      && (o.protocol != "" ==> o.protocol != def.protocol)
      && (o.caps.Some? ==> o.caps.value != def.caps)
      && !(Inherits(o) && o.requestTimeout == 0)
  }

  predicate Inherits<Caps>(o: Override<Caps>) {
    o.contextWindow == 0 && o.outputLimit == 0 && o.tokenizer == "" && o.family == "" && o.protocol == "" && o.caps.None?
  }

  function Timeout<Caps>(entry: Option<Override<Caps>>): int {
    if entry.None? then 0 else entry.value.requestTimeout
  }

  /** The entry a save leaves. */
  function Encode<Caps(==)>(def: Values<Caps>, req: Request<Caps>, timeout: int): Option<Override<Caps>> {
    var o := Override(
      if req.contextWindow != def.contextWindow then req.contextWindow else 0,
      if req.outputLimit != def.outputLimit then req.outputLimit else 0,
      if req.tokenizer != def.tokenizer then req.tokenizer else "",
      if req.family != def.family then req.family else "",
      if req.protocol != def.protocol then req.protocol else "",
      if req.caps.Some? && req.caps.value != def.caps then req.caps else None,
      timeout);
    if Inherits(o) && timeout == 0 then None else Some(o)
  }

  // ------------------------------------------------------------------------------------------------
  // The encoding loses nothing
  // ------------------------------------------------------------------------------------------------

  /** Reading after an accepted save gives exactly the values asked for, and the timeout is the one there was. */
  lemma ReadAfterSave<Caps>(c: Catalog<Caps>, def: Values<Caps>, req: Request<Caps>, timeout: int)
    requires Accepted(c, req)
    ensures Read(def, Encode(def, req, timeout)) == Asked(def, req)
    ensures Timeout(Encode(def, req, timeout)) == timeout
    ensures Canonical(def, Encode(def, req, timeout))
  {
  }

  /** The entry goes exactly when the values asked for are the built-in ones and no timeout is set. */
  lemma EntryVanishesExactly<Caps>(c: Catalog<Caps>, def: Values<Caps>, req: Request<Caps>, timeout: int)
    requires Accepted(c, req)
    ensures Encode(def, req, timeout).None? <==> Asked(def, req) == def && timeout == 0
  {
    ReadAfterSave(c, def, req, timeout);
  }

  /** Saving what was read keeps every value and makes the entry canonical, whatever was stored before. */
  lemma SavingWhatWasRead<Caps>(c: Catalog<Caps>, def: Values<Caps>, entry: Option<Override<Caps>>)
    requires Accepted(c, Shown(Read(def, entry)))
    ensures var again := Encode(def, Shown(Read(def, entry)), Timeout(entry));
            Read(def, again) == Read(def, entry) && Timeout(again) == Timeout(entry) && Canonical(def, again)
  {
    ReadAfterSave(c, def, Shown(Read(def, entry)), Timeout(entry));
  }

  predicate NonNegative<Caps>(entry: Option<Override<Caps>>) {
    entry.Some? ==> entry.value.contextWindow >= 0 && entry.value.outputLimit >= 0
  }

  /** The canonical entry is the only one for its values: sparse entries that read alike are alike. */
  lemma CanonicalIsUnique<Caps>(def: Values<Caps>, a: Option<Override<Caps>>, b: Option<Override<Caps>>)
    requires Canonical(def, a) && Canonical(def, b) && NonNegative(a) && NonNegative(b)
    requires Read(def, a) == Read(def, b) && Timeout(a) == Timeout(b)
    ensures a == b
  {
    if a.Some? {
      SentinelsAreReadable(def, a.value);
    }
    if b.Some? {
      SentinelsAreReadable(def, b.value);
    }
  }

  /** A canonical field is a sentinel exactly when it reads as the built-in value. */
  lemma SentinelsAreReadable<Caps>(def: Values<Caps>, o: Override<Caps>)
    requires Canonical(def, Some(o)) && NonNegative(Some(o))
    ensures var v := Read(def, Some(o));
            && (o.contextWindow == 0 <==> v.contextWindow == def.contextWindow)
            && (o.outputLimit == 0 <==> v.outputLimit == def.outputLimit)
            && (o.tokenizer == "" <==> v.tokenizer == def.tokenizer)
            && (o.family == "" <==> v.family == def.family)
            && (o.protocol == "" <==> v.protocol == def.protocol)
            && (o.caps.None? <==> v.caps == def.caps)
            && (v != def || o.requestTimeout != 0)
  {
  }

  // ------------------------------------------------------------------------------------------------
  // The calls
  // ------------------------------------------------------------------------------------------------

  datatype ConfigError = NotInitialized | NotPositive | WindowTooLarge | BadTokenizer | BadFamily | BadProtocol | NotPersisted

  datatype ModelConfig<Caps> = ModelConfig(values: Values<Caps>, defaults: Values<Caps>, hasOverride: bool)

  class FrontendAPI<Caps(==)> {
    var loaded: bool
    var models: map<string, Override<Caps>>
    var loadErrors: seq<string>
    const catalog: Catalog<Caps>

    constructor (catalog: Catalog<Caps>, models: map<string, Override<Caps>>, loadErrors: seq<string>)
      ensures loaded && this.catalog == catalog && this.models == models && this.loadErrors == loadErrors
    {
      loaded, this.catalog, this.models, this.loadErrors := true, catalog, models, loadErrors;
    }

    function Entry(model: string): Option<Override<Caps>>
      reads this
    {
      if model in models then Some(models[model]) else None
    }

    method GetModelConfig(model: string) returns (r: Result<ModelConfig<Caps>, ConfigError>)
      ensures !loaded ==> r == Err(NotInitialized)
      ensures loaded ==> r.Ok? && r.value.defaults == catalog.builtIn(model) && r.value.hasOverride == (model in models)
      ensures loaded ==> r.value.values == Read(catalog.builtIn(model), Entry(model))
      ensures loaded && model !in models ==> r.value.values == catalog.builtIn(model)
      ensures loaded && model in models ==>
        var o, v, def := models[model], r.value.values, catalog.builtIn(model);
        && v.contextWindow == (if o.contextWindow > 0 then o.contextWindow else def.contextWindow)
        && v.outputLimit == (if o.outputLimit > 0 then o.outputLimit else def.outputLimit)
        && v.tokenizer == (if o.tokenizer != "" then o.tokenizer else def.tokenizer)
        && v.family == (if o.family != "" then o.family else def.family)
        && v.protocol == (if o.protocol != "" then o.protocol else def.protocol)
        && v.caps == if o.caps.Some? then o.caps.value else def.caps
    {
      if !loaded {
        return Err(NotInitialized);
      }
      var def := catalog.builtIn(model);
      var v := def;
      if model in models {
        var o := models[model];
        if o.contextWindow > 0 {
          v := v.(contextWindow := o.contextWindow);
        }
        if o.outputLimit > 0 {
          v := v.(outputLimit := o.outputLimit);
        }
        if o.tokenizer != "" {
          v := v.(tokenizer := o.tokenizer);
        }
        if o.family != "" {
          v := v.(family := o.family);
        }
        if o.protocol != "" {
          v := v.(protocol := o.protocol);
        }
        if o.caps.Some? {
          v := v.(caps := o.caps.value);
        }
      }
      r := Ok(ModelConfig(v, def, model in models));
    }

    method Validate(req: Request<Caps>) returns (r: Result<(), ConfigError>)
      ensures r.Ok? <==> loaded && Accepted(catalog, req)
      ensures r.Ok? <==>
        && loaded && 1 <= req.contextWindow <= 16777216 && 1 <= req.outputLimit
        && req.tokenizer in {"", "approximate", "tiktoken/o200k_base", "tiktoken/cl100k_base", "anthropic-api"}
        && (req.family == "" || req.family in catalog.families) && (req.protocol == "" || req.protocol in catalog.protocols)
      ensures r.Err? ==> match r.error
        case NotInitialized => !loaded
        case NotPositive => req.contextWindow < 1 || req.outputLimit < 1
        case WindowTooLarge => req.contextWindow > 16777216
        case BadTokenizer => req.tokenizer != "" && req.tokenizer !in TOKENIZER_TYPES
        case BadFamily => req.family != "" && req.family !in catalog.families
        case BadProtocol => req.protocol != "" && req.protocol !in catalog.protocols
        case NotPersisted => false
    {
      if !loaded {
        return Err(NotInitialized);
      }
      if req.contextWindow < 1 || req.outputLimit < 1 {
        return Err(NotPositive);
      }
      if req.contextWindow > MAX_CONTEXT_WINDOW {
        return Err(WindowTooLarge);
      }
      if req.tokenizer != "" && req.tokenizer !in TOKENIZER_TYPES {
        return Err(BadTokenizer);
      }
      if req.family != "" && req.family !in catalog.families {
        return Err(BadFamily);
      }
      if req.protocol != "" && req.protocol !in catalog.protocols {
        return Err(BadProtocol);
      }
      r := Ok(());
    }

    /** Each field that differs from the built-in value, and a sentinel for each that does not. */
    method SparseEntry(def: Values<Caps>, req: Request<Caps>, timeout: int) returns (entry: Option<Override<Caps>>)
      ensures entry == Encode(def, req, timeout)
    {
      var newCW, newOL, newTok, newFam, newProto, newCaps := 0, 0, "", "", "", None;
      if req.contextWindow != def.contextWindow {
        newCW := req.contextWindow;
      }
      if req.outputLimit != def.outputLimit {
        newOL := req.outputLimit;
      }
      if req.tokenizer != def.tokenizer {
        newTok := req.tokenizer;
      }
      if req.family != def.family {
        newFam := req.family;
      }
      if req.protocol != def.protocol {
        newProto := req.protocol;
      }
      if req.caps.Some? && req.caps.value != def.caps {
        newCaps := req.caps;
      }
      if newCW == 0 && newOL == 0 && newTok == "" && newFam == "" && newProto == "" && newCaps.None? && timeout == 0 {
        return None;
      }
      entry := Some(Override(newCW, newOL, newTok, newFam, newProto, newCaps, timeout));
    }

    /**
     * What a later read of the model returns is what was asked for, also when the write to disk fails and the call
     * reports it; the timeout and every other model stay as they were, and a refused request changes nothing.
     */
    method SetModelConfig(model: string, req: Request<Caps>, saveOk: bool) returns (r: Result<(), ConfigError>)
      modifies this`models, this`loadErrors
      ensures r.Ok? <==> loaded && Accepted(catalog, req) && saveOk
      ensures loaded && Accepted(catalog, req) ==>
        && Read(catalog.builtIn(model), Entry(model)) == Asked(catalog.builtIn(model), req)
        && Timeout(Entry(model)) == Timeout(old(Entry(model)))
        && Canonical(catalog.builtIn(model), Entry(model))
        && (r.Ok? || r.error.NotPersisted?)
      ensures loaded && Accepted(catalog, req) ==>
        var v, def := Read(catalog.builtIn(model), Entry(model)), catalog.builtIn(model);
        && v.contextWindow == req.contextWindow && v.outputLimit == req.outputLimit
        && v.tokenizer == (if req.tokenizer == "" then def.tokenizer else req.tokenizer)
        && v.family == (if req.family == "" then def.family else req.family)
        && v.protocol == (if req.protocol == "" then def.protocol else req.protocol)
        && v.caps == if req.caps.None? then def.caps else req.caps.value
      ensures !(loaded && Accepted(catalog, req)) ==> models == old(models)
      ensures forall m | m != model :: Entry(m) == old(Entry(m))
      ensures loadErrors == if r.Ok? then [] else old(loadErrors)
    {
      r := Validate(req);
      if r.Err? {
        return;
      }
      var def := catalog.builtIn(model);
      var timeout := if model in models then models[model].requestTimeout else 0;
      var entry := SparseEntry(def, req, timeout);
      ReadAfterSave(catalog, def, req, timeout);
      if entry.None? {
        models := models - {model};
      } else {
        models := models[model := entry.value];
      }
      assert Entry(model) == entry;
      if !saveOk {
        return Err(NotPersisted);
      }
      loadErrors := [];
      r := Ok(());
    }
  }
}
