/** The configuration loader of `src/config-loader.ts`: `createConfigLoader` closes
    over the options and a three-part cache (config, path, modification time) and
    reparses when forced, when the cache is empty, or when the file's path or
    modification time has changed. The closure's variables become a class's fields. */
module ClosureLoader {
  import opened Wrappers
  import opened JsValue
  import opened PosixPath
  import opened ConfigTypes
  import opened Environment
  import opened SchemaValidator
  import opened ConfigResolution

  // ---------------------------------------------------------------------------
  // Parsing

  /** An optional string as the JavaScript value it is. */
  function OptionalString(o: Option<string>): Value {
    if o.Some? then Str(o.value) else Undefined
  }

  /** The `database` record as the JavaScript object it is. */
  function DatabaseObject(db: DatabaseConfig): Value {
    Obj(map["projectId" := Str(db.projectId), "instanceId" := Str(db.instanceId), "database" := Str(db.database)])
  }

  /** The `assertField` calls `parseConfig` makes on the checked configuration, in order. */
  function ValidatedChecks(config: Config): seq<FieldCheck> {
    [FieldCheck(OptionalString(config.schemaFile), "schemaFile"),
     FieldCheck(DatabaseObject(config.database), "database"),
     FieldCheck(Str(config.database.projectId), "database.projectId"),
     FieldCheck(Str(config.database.instanceId), "database.instanceId"),
     FieldCheck(Str(config.database.database), "database.database")]
  }

  /** `parseConfig(raw, configPath)`; reading the file and parsing its YAML is the given
      `document`, and `cwd` is the directory relative paths resolve against. */
  function ParseConfig(cwd: AbsolutePath, document: YamlDocument, configPath: string): Result<ResolvedConfig, Error> {
    match document
    case SyntaxError(message) => Failure(ParsingError(YamlSyntax(message)))
    case Document(value) =>
      match SchemaOutcome(value)
      case Invalid(issues) => Failure(ParsingError(SchemaInvalid(issues)))
      case Valid(config) =>
        var asserted := AssertFields(ValidatedChecks(config));
        if asserted.Fail? then Failure(asserted.error)
        else
          var configDir := Dirname(configPath);
          Success(ResolvedConfig(
            ResolvePath(cwd, configDir, config.schemaFile),
            ResolvePath(cwd, configDir, config.defaultExpectedData),
            config.database,
            ResolveSpalidate(cwd, configDir, config.spalidate),
            configDir))
  }

  /** The field assertions after a successful schema check never fire: the schema
      already demands every one of those fields as a non-blank string. */
  lemma ValidatedConfigPassesAssertions(value: Value)
    requires SchemaOutcome(value).Valid?
    ensures AssertFields(ValidatedChecks(SchemaOutcome(value).data)).Pass?
  {
    ValidConfigContents(value);
    var checks := ValidatedChecks(SchemaOutcome(value).data);
    forall i | 0 <= i < |checks| ensures AssertField(checks[i]).Pass? {
    }
  }

  /** `parseConfig` fails with a parsing error for a YAML syntax error and for a failed
      schema check, the latter carrying the whole issue list; otherwise it succeeds with
      the checked configuration, its paths resolved against `dirname(configPath)`. */
  lemma ParseConfigOutcome(cwd: AbsolutePath, document: YamlDocument, configPath: string)
    ensures var r := ParseConfig(cwd, document, configPath);
      && (document.SyntaxError? ==> r == Failure(ParsingError(YamlSyntax(document.message))))
      && (document.Document? && SchemaOutcome(document.value).Invalid? ==>
            r == Failure(ParsingError(SchemaInvalid(SchemaOutcome(document.value).issues))))
      && (r.Success? <==> document.Document? && SchemaOutcome(document.value).Valid?)
  {
    if document.Document? && SchemaOutcome(document.value).Valid? {
      ValidatedConfigPassesAssertions(document.value);
    }
  }

  /** On success: `configDir` is the file's directory, `schemaFile` is resolved against
      it, `defaultExpectedData` is resolved when given and absent otherwise, the
      database record is the one written, and only the working directory of the
      `spalidate` block is rewritten. */
  lemma ParsedConfigContents(cwd: AbsolutePath, value: Value, configPath: string)
    requires ParseConfig(cwd, Document(value), configPath).Success?
    ensures var c := ParseConfig(cwd, Document(value), configPath).value;
      var data := SchemaOutcome(value).data;
      && SchemaOutcome(value).Valid?
      && c.configDir == Dirname(configPath)
      && c.schemaFile == Some(Resolve(cwd, [c.configDir, data.schemaFile.value]))
      && (c.defaultExpectedData.Some? <==> data.defaultExpectedData.Some?)
      && (c.defaultExpectedData.Some? ==>
            c.defaultExpectedData.value == Resolve(cwd, [c.configDir, data.defaultExpectedData.value]))
      && c.database == data.database
      && c.spalidate == ResolveSpalidate(cwd, c.configDir, data.spalidate)
  {
    ValidConfigContents(value);
  }

  // ---------------------------------------------------------------------------
  // The cache state machine

  /** The closure's variables: the configured path and the three cache parts. */
  datatype LoaderState = LoaderState(
    configPath: Option<string>,
    cachedConfig: Option<ResolvedConfig>,
    cachedPath: Option<string>,
    cachedMtime: Option<int>)

  /** What `load` returns and the state it leaves. */
  datatype Step = Step(result: Result<ResolvedConfig, Error>, next: LoaderState)

  /** `force || !cachedConfig || cachedPath !== configPath || cachedMtimeMs !== stat.mtimeMs` */
  predicate NeedsReload(s: LoaderState, path: string, mtime: int, force: bool) {
    force || s.cachedConfig.None? || s.cachedPath != Some(path) || s.cachedMtime != Some(mtime)
  }

  /** `load(force)` against the file system `host`. */
  function LoadStep(s: LoaderState, host: Host, force: bool): Step {
    match ResolveConfigPath(s.configPath, host)
    case Failure(e) => Step(Failure(e), s)
    case Success(path) =>
      var entry := Entry(host, path);
      if !NeedsReload(s, path, entry.mtime, force) then Step(Success(s.cachedConfig.value), s)
      else
        match ParseConfig(host.cwd, entry.document, path)
        case Failure(e) => Step(Failure(e), s)
        case Success(c) =>
          Step(Success(c), s.(cachedConfig := Some(c), cachedPath := Some(path), cachedMtime := Some(entry.mtime)))
  }

  /** `setConfigPath(configPath)` */
  function SetConfigPathStep(s: LoaderState, configPath: Option<string>): LoaderState {
    if IsTruthy(configPath) then LoaderState(configPath, None, None, None) else s
  }

  /** The cache is all there or all gone, and a cached configuration belongs to the
      cached path. */
  predicate Coherent(s: LoaderState) {
    && (s.cachedConfig.Some? <==> s.cachedPath.Some?)
    && (s.cachedConfig.Some? <==> s.cachedMtime.Some?)
    && (s.cachedConfig.Some? ==> s.cachedConfig.value.configDir == Dirname(s.cachedPath.value))
  }

  class ConfigLoader {
    var configPath: Option<string>
    var cachedConfig: Option<ResolvedConfig>
    var cachedPath: Option<string>
    var cachedMtime: Option<int>

    function State(): LoaderState
      reads this
    {
      LoaderState(configPath, cachedConfig, cachedPath, cachedMtime)
    }

    /** `createConfigLoader(options)`: only `options.configPath` is ever read. */
    constructor (configPath: Option<string>)
      ensures State() == LoaderState(configPath, None, None, None)
      ensures Coherent(State())
    {
      this.configPath := configPath;
      cachedConfig := None;
      cachedPath := None;
      cachedMtime := None;
    }

    /** `load(force)` */
    method Load(host: Host, force: bool) returns (r: Result<ResolvedConfig, Error>)
      modifies this
      ensures r == LoadStep(old(State()), host, force).result
      ensures State() == LoadStep(old(State()), host, force).next
    {
      var resolved := ResolveConfigPath(configPath, host);
      if resolved.Failure? {
        return Failure(resolved.error);
      }
      var path := resolved.value;
      var mtime := Entry(host, path).mtime;
      var needsReload := force || cachedConfig.None? || cachedPath != Some(path) || cachedMtime != Some(mtime);
      if !needsReload && cachedConfig.Some? {
        return Success(cachedConfig.value);
      }
      var parsed := ParseConfig(host.cwd, Entry(host, path).document, path);
      if parsed.Failure? {
        return parsed;
      }
      cachedConfig := Some(parsed.value);
      cachedPath := Some(path);
      cachedMtime := Some(mtime);
      return parsed;
    }

    /** `setConfigPath(configPath)` */
    method SetConfigPath(path: Option<string>)
      modifies this
      ensures State() == SetConfigPathStep(old(State()), path)
    {
      if path.Some? && path.value != "" {
        configPath := path;
        cachedConfig := None;
        cachedPath := None;
        cachedMtime := None;
      }
    }
  }

  // ---------------------------------------------------------------------------
  // Properties

  /** `load` reparses exactly when forced, when nothing is cached, or when the file's
      path or modification time differs from the cached ones; otherwise it returns the
      cached configuration and changes nothing. */
  lemma ReloadIff(s: LoaderState, host: Host, force: bool)
    requires ResolveConfigPath(s.configPath, host).Success?
    ensures var path := ResolveConfigPath(s.configPath, host).value;
      var entry := Entry(host, path);
      var step := LoadStep(s, host, force);
      && (!NeedsReload(s, path, entry.mtime, force) ==>
            step == Step(Success(s.cachedConfig.value), s))
      && (NeedsReload(s, path, entry.mtime, force) ==>
            step.result == ParseConfig(host.cwd, entry.document, path))
  {
  }

  /** A cache hit does not read the file: hosts that differ only in the file's
      contents give the same step. */
  lemma CacheHitIgnoresContents(s: LoaderState, host: Host, document: YamlDocument, force: bool)
    requires ResolveConfigPath(s.configPath, host).Success?
    requires !NeedsReload(s, ResolveConfigPath(s.configPath, host).value,
                          Entry(host, ResolveConfigPath(s.configPath, host).value).mtime, force)
    ensures var path := ResolveConfigPath(s.configPath, host).value;
      var other := host.(files := host.files[Resolve(host.cwd, [path]) := Entry(host, path).(document := document)]);
      LoadStep(s, other, force) == LoadStep(s, host, force)
  {
    var path := ResolveConfigPath(s.configPath, host).value;
    var other := host.(files := host.files[Resolve(host.cwd, [path]) := Entry(host, path).(document := document)]);
    assert ResolveConfigPath(s.configPath, other) == ResolveConfigPath(s.configPath, host) by {
      assert ConfigCandidate(s.configPath, other) == path;
    }
  }

  /** A failed load, at any stage, leaves the configured path and all three cache parts
      as they were. */
  lemma FailureLeavesCache(s: LoaderState, host: Host, force: bool)
    requires LoadStep(s, host, force).result.Failure?
    ensures LoadStep(s, host, force).next == s
  {
  }

  /** A successful load leaves the returned configuration cached with the file's path
      and modification time, and the configured path untouched. */
  lemma SuccessCaches(s: LoaderState, host: Host, force: bool)
    requires LoadStep(s, host, force).result.Success?
    ensures var step := LoadStep(s, host, force);
      var path := ResolveConfigPath(s.configPath, host).value;
      && ResolveConfigPath(s.configPath, host).Success?
      && step.next == LoaderState(s.configPath, Some(step.result.value), Some(path), Some(Entry(host, path).mtime))
  {
  }

  /** Loading again from an unchanged file system, unforced, hits the cache. */
  lemma SecondLoadHitsCache(s: LoaderState, host: Host, force: bool)
    requires LoadStep(s, host, force).result.Success?
    ensures var step := LoadStep(s, host, force);
      LoadStep(step.next, host, false) == step
  {
    SuccessCaches(s, host, force);
  }

  /** A changed modification time under the same path makes `load` reparse. */
  lemma MtimeChangeReloads(s: LoaderState, host: Host)
    requires ResolveConfigPath(s.configPath, host).Success?
    requires s.cachedMtime != Some(Entry(host, ResolveConfigPath(s.configPath, host).value).mtime)
    ensures var path := ResolveConfigPath(s.configPath, host).value;
      LoadStep(s, host, false).result == ParseConfig(host.cwd, Entry(host, path).document, path)
  {
  }

  /** `setConfigPath` with a non-empty path replaces the path and empties the cache,
      so the next load reparses; `undefined` or `''` changes nothing. */
  lemma SetConfigPathResets(s: LoaderState, path: Option<string>, host: Host)
    ensures IsTruthy(path) ==> SetConfigPathStep(s, path) == LoaderState(path, None, None, None)
    ensures !IsTruthy(path) ==> SetConfigPathStep(s, path) == s
    ensures IsTruthy(path) && ResolveConfigPath(path, host).Success? ==>
              LoadStep(SetConfigPathStep(s, path), host, false).result ==
                ParseConfig(host.cwd, Entry(host, path.value).document, path.value)
  {
  }

  /** Both steps keep the cache coherent. */
  lemma StepsKeepCoherent(s: LoaderState, host: Host, force: bool, path: Option<string>)
    requires Coherent(s)
    ensures Coherent(LoadStep(s, host, force).next)
    ensures Coherent(SetConfigPathStep(s, path))
    ensures LoadStep(s, host, force).result.Success? ==>
              LoadStep(s, host, force).result.value.configDir ==
                Dirname(LoadStep(s, host, force).next.cachedPath.value)
  {
    var step := LoadStep(s, host, force);
    if step.result.Success? && step.next != s {
      var path := ResolveConfigPath(s.configPath, host).value;
      ParsedConfigContents(host.cwd, Entry(host, path).document.value, path);
    }
  }
}
