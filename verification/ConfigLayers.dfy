/** Partial configuration layers and how one is merged into another. */
module ConfigLayers {
  import opened Conversation

  datatype ModelPreferences = ModelPreferences(
    default: Option<string>, code: Option<string>, chat: Option<string>, small: Option<string>, large: Option<string>)

  datatype GlobalLayer = GlobalLayer(
    defaultProvider: Option<string>, modelPreferences: Option<ModelPreferences>, workspaceRoot: Option<string>)

  /** A provider's own settings are never merged, so they stay one value. */
  datatype Provider =
    | OpenAi(settings: string)
    | Anthropic(settings: string)
    | Ollama(settings: string)
    | Custom(settings: string)

  datatype ProvidersLayer = ProvidersLayer(entries: map<string, Provider>)

  datatype WorkspaceLayer = WorkspaceLayer(
    root: Option<string>, allowOutsideWorkspace: Option<bool>, allowedPaths: Option<seq<string>>)

  datatype ToolsLayer = ToolsLayer(
    maxFileSizeBytes: Option<nat>, commandTimeoutSecs: Option<nat>, allowShell: Option<bool>,
    workspace: Option<WorkspaceLayer>)

  datatype LoggingLayer = LoggingLayer(level: Option<string>, file: Option<string>, format: Option<string>)

  datatype RetryLayer = RetryLayer(
    maxAttempts: Option<nat>, baseDelayMs: Option<nat>, maxDelayMs: Option<nat>, backoffFactor: Option<real>,
    jitter: Option<bool>)

  datatype Layer = Layer(
    global: Option<GlobalLayer>,
    providers: Option<ProvidersLayer>,
    tools: Option<ToolsLayer>,
    logging: Option<LoggingLayer>,
    retry: Option<RetryLayer>)

  const DEFAULT := Layer(None, None, None, None, None)

  // ----- Merging

  function Override<T>(target: Option<T>, source: Option<T>): Option<T> {
    if source.Some? then source else target
  }

  function MergeOption<T>(target: Option<T>, source: Option<T>, merge: (T, T) -> T): Option<T> {
    if target.Some? && source.Some? then Some(merge(target.value, source.value)) else Override(target, source)
  }

  function MergePreferences(t: ModelPreferences, s: ModelPreferences): ModelPreferences {
    ModelPreferences(Override(t.default, s.default), Override(t.code, s.code), Override(t.chat, s.chat),
                     Override(t.small, s.small), Override(t.large, s.large))
  }

  function MergeGlobal(t: GlobalLayer, s: GlobalLayer): GlobalLayer {
    GlobalLayer(Override(t.defaultProvider, s.defaultProvider),
                MergeOption(t.modelPreferences, s.modelPreferences, MergePreferences),
                Override(t.workspaceRoot, s.workspaceRoot))
  }

  function MergeProviders(t: ProvidersLayer, s: ProvidersLayer): ProvidersLayer {
    ProvidersLayer(t.entries + s.entries)
  }

  function MergeWorkspace(t: WorkspaceLayer, s: WorkspaceLayer): WorkspaceLayer {
    WorkspaceLayer(Override(t.root, s.root), Override(t.allowOutsideWorkspace, s.allowOutsideWorkspace),
                   Override(t.allowedPaths, s.allowedPaths))
  }

  function MergeTools(t: ToolsLayer, s: ToolsLayer): ToolsLayer {
    ToolsLayer(Override(t.maxFileSizeBytes, s.maxFileSizeBytes), Override(t.commandTimeoutSecs, s.commandTimeoutSecs),
               Override(t.allowShell, s.allowShell), MergeOption(t.workspace, s.workspace, MergeWorkspace))
  }

  function MergeLogging(t: LoggingLayer, s: LoggingLayer): LoggingLayer {
    LoggingLayer(Override(t.level, s.level), Override(t.file, s.file), Override(t.format, s.format))
  }

  function MergeRetry(t: RetryLayer, s: RetryLayer): RetryLayer {
    RetryLayer(Override(t.maxAttempts, s.maxAttempts), Override(t.baseDelayMs, s.baseDelayMs),
               Override(t.maxDelayMs, s.maxDelayMs), Override(t.backoffFactor, s.backoffFactor),
               Override(t.jitter, s.jitter))
  }

  function Merged(t: Layer, s: Layer): Layer {
    Layer(MergeOption(t.global, s.global, MergeGlobal),
          MergeOption(t.providers, s.providers, MergeProviders),
          MergeOption(t.tools, s.tools, MergeTools),
          MergeOption(t.logging, s.logging, MergeLogging),
          MergeOption(t.retry, s.retry, MergeRetry))
  }

  class ConfigLayer {
    var global: Option<GlobalLayer>
    var providers: Option<ProvidersLayer>
    var tools: Option<ToolsLayer>
    var logging: Option<LoggingLayer>
    var retry: Option<RetryLayer>

    function Value(): Layer
      reads this
    {
      Layer(global, providers, tools, logging, retry)
    }

    constructor ()
      ensures Value() == DEFAULT
    {
      global, providers, tools, logging, retry := None, None, None, None, None;
    }

    method Merge(other: Layer)
      modifies this
      ensures Value() == Merged(old(Value()), other)
    {
      global := MergeOption(global, other.global, MergeGlobal);
      if other.providers.Some? {
        if providers.Some? {
          var entries := InsertAll(providers.value.entries, other.providers.value.entries);
          providers := Some(ProvidersLayer(entries));
        } else {
          providers := other.providers;
        }
      }
      tools := MergeOption(tools, other.tools, MergeTools);
      logging := MergeOption(logging, other.logging, MergeLogging);
      retry := MergeOption(retry, other.retry, MergeRetry);
    }
  }

  /** Inserts the new entries one by one, in any order. */
  method InsertAll(entries: map<string, Provider>, added: map<string, Provider>) returns (r: map<string, Provider>)
    ensures r == entries + added
  {
    r := entries;
    var left := added.Keys;
    while left != {}
      invariant left <= added.Keys
      invariant r == entries + (map name | name in added && name !in left :: added[name])
      decreases left
    {
      var name :| name in left;
      r := r[name := added[name]];
      left := left - {name};
    }
  }

  // ----- Fields

  datatype Value =
    | Text(text: string)
    | Count(count: nat)
    | Number(number: real)
    | Flag(flag: bool)
    | Texts(texts: seq<string>)
    | Whole(provider: Provider)
    | Present

  /** Every place of a layer that can be set; sections and subsections count as places too. */
  datatype Field =
    | GlobalSection | DefaultProvider | PreferencesSection
    | DefaultModel | CodeModel | ChatModel | SmallModel | LargeModel
    | WorkspaceRoot
    | ProvidersSection | ProviderEntry(name: string)
    | ToolsSection | MaxFileSize | CommandTimeout | AllowShell
    | WorkspaceSection | ToolRoot | AllowOutside | AllowedPaths
    | LoggingSection | Level | LogFile | Format
    | RetrySection | MaxAttempts | BaseDelay | MaxDelay | Factor | Jitter

  function OfText(o: Option<string>): Option<Value> {
    if o.Some? then Some(Text(o.value)) else None
  }

  function OfCount(o: Option<nat>): Option<Value> {
    if o.Some? then Some(Count(o.value)) else None
  }

  function OfFlag(o: Option<bool>): Option<Value> {
    if o.Some? then Some(Flag(o.value)) else None
  }

  function OfPresence<T>(o: Option<T>): Option<Value> {
    if o.Some? then Some(Present) else None
  }

  function Get(l: Layer, f: Field): Option<Value> {
    match f
    case GlobalSection => OfPresence(l.global)
    case DefaultProvider => if l.global.None? then None else OfText(l.global.value.defaultProvider)
    case WorkspaceRoot => if l.global.None? then None else OfText(l.global.value.workspaceRoot)
    case PreferencesSection => if l.global.None? then None else OfPresence(l.global.value.modelPreferences)
    case DefaultModel | CodeModel | ChatModel | SmallModel | LargeModel =>
      if l.global.None? || l.global.value.modelPreferences.None? then None
      else GetPreference(l.global.value.modelPreferences.value, f)
    case ProvidersSection => OfPresence(l.providers)
    case ProviderEntry(name) =>
      if l.providers.None? || name !in l.providers.value.entries then None
      else Some(Whole(l.providers.value.entries[name]))
    case ToolsSection => OfPresence(l.tools)
    case MaxFileSize => if l.tools.None? then None else OfCount(l.tools.value.maxFileSizeBytes)
    case CommandTimeout => if l.tools.None? then None else OfCount(l.tools.value.commandTimeoutSecs)
    case AllowShell => if l.tools.None? then None else OfFlag(l.tools.value.allowShell)
    case WorkspaceSection => if l.tools.None? then None else OfPresence(l.tools.value.workspace)
    case ToolRoot | AllowOutside | AllowedPaths =>
      if l.tools.None? || l.tools.value.workspace.None? then None else GetWorkspace(l.tools.value.workspace.value, f)
    case LoggingSection => OfPresence(l.logging)
    case Level | LogFile | Format => if l.logging.None? then None else GetLogging(l.logging.value, f)
    case RetrySection => OfPresence(l.retry)
    case MaxAttempts | BaseDelay | MaxDelay | Factor | Jitter =>
      if l.retry.None? then None else GetRetry(l.retry.value, f)
  }

  function GetPreference(p: ModelPreferences, f: Field): Option<Value> {
    match f
    case DefaultModel => OfText(p.default)
    case CodeModel => OfText(p.code)
    case ChatModel => OfText(p.chat)
    case SmallModel => OfText(p.small)
    case LargeModel => OfText(p.large)
    case _ => None
  }

  function GetWorkspace(w: WorkspaceLayer, f: Field): Option<Value> {
    match f
    case ToolRoot => OfText(w.root)
    case AllowOutside => OfFlag(w.allowOutsideWorkspace)
    case AllowedPaths => if w.allowedPaths.Some? then Some(Texts(w.allowedPaths.value)) else None
    case _ => None
  }

  function GetLogging(g: LoggingLayer, f: Field): Option<Value> {
    match f
    case Level => OfText(g.level)
    case LogFile => OfText(g.file)
    case Format => OfText(g.format)
    case _ => None
  }

  function GetRetry(r: RetryLayer, f: Field): Option<Value> {
    match f
    case MaxAttempts => OfCount(r.maxAttempts)
    case BaseDelay => OfCount(r.baseDelayMs)
    case MaxDelay => OfCount(r.maxDelayMs)
    case Factor => if r.backoffFactor.Some? then Some(Number(r.backoffFactor.value)) else None
    case Jitter => OfFlag(r.jitter)
    case _ => None
  }

  lemma MergeProvidersIsFieldwise(t: Layer, s: Layer, name: string)
    ensures Get(Merged(t, s), ProviderEntry(name)) == Override(Get(t, ProviderEntry(name)), Get(s, ProviderEntry(name)))
  {
  }

  lemma MergeGlobalIsFieldwise(t: Layer, s: Layer, f: Field)
    requires f.DefaultModel? || f.CodeModel? || f.ChatModel? || f.SmallModel? || f.LargeModel?
    ensures Get(Merged(t, s), f) == Override(Get(t, f), Get(s, f))
  {
  }

  lemma MergeToolsIsFieldwise(t: Layer, s: Layer, f: Field)
    requires f.ToolRoot? || f.AllowOutside? || f.AllowedPaths?
    ensures Get(Merged(t, s), f) == Override(Get(t, f), Get(s, f))
  {
  }

  lemma MergeLoggingIsFieldwise(t: Layer, s: Layer, f: Field)
    requires f.Level? || f.LogFile? || f.Format?
    ensures Get(Merged(t, s), f) == Override(Get(t, f), Get(s, f))
  {
  }

  lemma MergeRetryIsFieldwise(t: Layer, s: Layer, f: Field)
    requires f.MaxAttempts? || f.BaseDelay? || f.MaxDelay? || f.Factor? || f.Jitter?
    ensures Get(Merged(t, s), f) == Override(Get(t, f), Get(s, f))
  {
    if t.retry.Some? && s.retry.Some? {
      RetryFieldwise(t.retry.value, s.retry.value, f);
    }
  }

  lemma RetryFieldwise(t: RetryLayer, s: RetryLayer, f: Field)
    ensures GetRetry(MergeRetry(t, s), f) == Override(GetRetry(t, f), GetRetry(s, f))
  {
  }

  /** Main result: merging is field by field, and the source wins where it sets the field. */
  lemma MergeIsFieldwise(t: Layer, s: Layer, f: Field)
    ensures Get(Merged(t, s), f) == if Get(s, f).Some? then Get(s, f) else Get(t, f)
  {
    match f {
      case ProviderEntry(name) => MergeProvidersIsFieldwise(t, s, name);
      case DefaultModel | CodeModel | ChatModel | SmallModel | LargeModel => MergeGlobalIsFieldwise(t, s, f);
      case ToolRoot | AllowOutside | AllowedPaths => MergeToolsIsFieldwise(t, s, f);
      case Level | LogFile | Format => MergeLoggingIsFieldwise(t, s, f);
      case MaxAttempts | BaseDelay | MaxDelay | Factor | Jitter => MergeRetryIsFieldwise(t, s, f);
      case _ =>
    }
  }

  ghost predicate SameFields(a: Layer, b: Layer) {
    forall f :: Get(a, f) == Get(b, f)
  }

  lemma SameGlobal(a: Layer, b: Layer)
    requires SameFields(a, b)
    ensures a.global == b.global
  {
    assert Get(a, GlobalSection) == Get(b, GlobalSection);
    if a.global.Some? {
      assert Get(a, DefaultProvider) == Get(b, DefaultProvider);
      assert Get(a, WorkspaceRoot) == Get(b, WorkspaceRoot);
      assert Get(a, PreferencesSection) == Get(b, PreferencesSection);
      if a.global.value.modelPreferences.Some? {
        assert Get(a, DefaultModel) == Get(b, DefaultModel);
        assert Get(a, CodeModel) == Get(b, CodeModel);
        assert Get(a, ChatModel) == Get(b, ChatModel);
        assert Get(a, SmallModel) == Get(b, SmallModel);
        assert Get(a, LargeModel) == Get(b, LargeModel);
      }
    }
  }

  lemma SameProviders(a: Layer, b: Layer)
    requires SameFields(a, b)
    ensures a.providers == b.providers
  {
    assert Get(a, ProvidersSection) == Get(b, ProvidersSection);
    if a.providers.Some? {
      forall name: string
        ensures Get(a, ProviderEntry(name)) == Get(b, ProviderEntry(name))
        ensures name in a.providers.value.entries <==> name in b.providers.value.entries
      {
      }
      assert a.providers.value.entries == b.providers.value.entries;
    }
  }

  lemma SameTools(a: Layer, b: Layer)
    requires SameFields(a, b)
    ensures a.tools == b.tools
  {
    assert Get(a, ToolsSection) == Get(b, ToolsSection);
    if a.tools.Some? {
      assert a.tools.value.maxFileSizeBytes == b.tools.value.maxFileSizeBytes by {
        assert Get(a, MaxFileSize) == Get(b, MaxFileSize);
      }
      assert a.tools.value.commandTimeoutSecs == b.tools.value.commandTimeoutSecs by {
        assert Get(a, CommandTimeout) == Get(b, CommandTimeout);
      }
      assert a.tools.value.allowShell == b.tools.value.allowShell by {
        assert Get(a, AllowShell) == Get(b, AllowShell);
      }
      assert Get(a, WorkspaceSection) == Get(b, WorkspaceSection);
      if a.tools.value.workspace.Some? {
        assert a.tools.value.workspace.value.root == b.tools.value.workspace.value.root by {
          assert Get(a, ToolRoot) == Get(b, ToolRoot);
        }
        assert a.tools.value.workspace.value.allowOutsideWorkspace
            == b.tools.value.workspace.value.allowOutsideWorkspace by {
          assert Get(a, AllowOutside) == Get(b, AllowOutside);
        }
        assert a.tools.value.workspace.value.allowedPaths == b.tools.value.workspace.value.allowedPaths by {
          assert Get(a, AllowedPaths) == Get(b, AllowedPaths);
        }
      }
    }
  }

  lemma SameLogging(a: Layer, b: Layer)
    requires SameFields(a, b)
    ensures a.logging == b.logging
  {
    assert Get(a, LoggingSection) == Get(b, LoggingSection);
    if a.logging.Some? {
      assert Get(a, Level) == Get(b, Level);
      assert Get(a, LogFile) == Get(b, LogFile);
      assert Get(a, Format) == Get(b, Format);
    }
  }

  lemma SameRetry(a: Layer, b: Layer)
    requires SameFields(a, b)
    ensures a.retry == b.retry
  {
    assert Get(a, RetrySection) == Get(b, RetrySection);
    if a.retry.Some? {
      assert a.retry.value.maxAttempts == b.retry.value.maxAttempts by {
        assert Get(a, MaxAttempts) == Get(b, MaxAttempts);
      }
      assert a.retry.value.baseDelayMs == b.retry.value.baseDelayMs by {
        assert Get(a, BaseDelay) == Get(b, BaseDelay);
      }
      assert a.retry.value.maxDelayMs == b.retry.value.maxDelayMs by {
        assert Get(a, MaxDelay) == Get(b, MaxDelay);
      }
      assert a.retry.value.backoffFactor == b.retry.value.backoffFactor by {
        assert Get(a, Factor) == Get(b, Factor);
      }
      assert a.retry.value.jitter == b.retry.value.jitter by {
        assert Get(a, Jitter) == Get(b, Jitter);
      }
    }
  }

  /** A layer is nothing but its fields. */
  lemma SameFieldsSameLayer(a: Layer, b: Layer)
    requires SameFields(a, b)
    ensures a == b
  {
    SameGlobal(a, b);
    SameProviders(a, b);
    SameTools(a, b);
    SameLogging(a, b);
    SameRetry(a, b);
  }

  lemma MergeIsAssociative(a: Layer, b: Layer, c: Layer)
    ensures Merged(Merged(a, b), c) == Merged(a, Merged(b, c))
  {
    forall f ensures Get(Merged(Merged(a, b), c), f) == Get(Merged(a, Merged(b, c)), f) {
      MergeIsFieldwise(Merged(a, b), c, f);
      MergeIsFieldwise(a, b, f);
      MergeIsFieldwise(a, Merged(b, c), f);
      MergeIsFieldwise(b, c, f);
    }
    SameFieldsSameLayer(Merged(Merged(a, b), c), Merged(a, Merged(b, c)));
  }

  lemma DefaultIsIdentity(l: Layer)
    ensures Merged(DEFAULT, l) == l == Merged(l, DEFAULT)
  {
  }
}
