/** The configuration loader of `src/config.ts`: class `ConfigLoader`, which caches a
    configuration and its path, returns the cache on any unforced load while it is
    filled, and checks the document only with `assertField` instead of the schema. */
module ClassLoader {
  import opened Wrappers
  import opened JsValue
  import opened JsString
  import opened PosixPath
  import opened ConfigTypes
  import opened Environment
  import opened ConfigResolution
  import ClosureLoader

  // ---------------------------------------------------------------------------
  // Parsing

  /** The `assertField` calls `parseConfig` makes on the raw document, in order. */
  function RawChecks(doc: Value): seq<FieldCheck> {
    var db := Field(doc, "database");
    [FieldCheck(Field(doc, "schemaFile"), "schemaFile"),
     FieldCheck(db, "database"),
     FieldCheck(Field(db, "projectId"), "database.projectId"),
     FieldCheck(Field(db, "instanceId"), "database.instanceId"),
     FieldCheck(Field(db, "database"), "database.database")]
  }

  /** One optional property of the unchecked `spalidate` block: `null` and `undefined`
      read as absent (every reader uses `??`, `?.` or a truthiness test), a value of
      the declared type is kept, and any other value is a type mismatch. */
  function LooseField<T>(v: Value, field: string, accept: Value -> bool, convert: Value --> T): (r: Result<Option<T>, Error>)
    requires forall x :: accept(x) ==> convert.requires(x)
    ensures r.Failure? <==> !IsNullish(v) && !accept(v)
    ensures r.Failure? ==> r.error == TypeMismatch(field)
    ensures r.Success? && r.value.Some? ==> accept(v) && r.value.value == convert(v)
    ensures IsNullish(v) ==> r == Success(None)
  {
    if IsNullish(v) then Success(None)
    else if accept(v) then Success(Some(convert(v)))
    else Failure(TypeMismatch(field))
  }

  /** `resolveSpalidate(parsed.spalidate, configDir)` on the unchecked block: a falsy
      value is no block; an object keeps its five declared properties and `timeout`;
      any other truthy value spreads to an object with none of them. */
  function LooseSpalidate(cwd: AbsolutePath, configDir: string, v: Value): (r: Result<Option<SpalidateConfig>, Error>)
    ensures !Truthy(v) ==> r == Success(None)
    ensures Truthy(v) && !v.Obj? ==> r == Success(Some(NoOverrides))
  {
    if !Truthy(v) then Success(None)
    else if !v.Obj? then Success(Some(NoOverrides))
    else
      var command := LooseField(Field(v, "command"), "spalidate.command", (x: Value) => x.Str?, (x: Value) requires x.Str? => x.s);
      var args := LooseField(Field(v, "args"), "spalidate.args", IsArrayOfStrings,
                             (x: Value) requires IsArrayOfStrings(x) => Strings(x.items));
      var env := LooseField(Field(v, "env"), "spalidate.env", IsRecordOfStrings,
                            (x: Value) requires IsRecordOfStrings(x) => StringRecord(x.fields));
      var spawnOptions := LooseField(Field(v, "spawnOptions"), "spalidate.spawnOptions", (x: Value) => x.Obj?,
                                     (x: Value) requires x.Obj? => x.fields);
      var workingDirectory := LooseField(Field(v, "workingDirectory"), "spalidate.workingDirectory",
                                         (x: Value) => x.Str?, (x: Value) requires x.Str? => x.s);
      var timeout := LooseField(Field(v, "timeout"), "spalidate.timeout", (x: Value) => x.Num?,
                                (x: Value) requires x.Num? => x.n);
      if command.Failure? then Failure(command.error)
      else if args.Failure? then Failure(args.error)
      else if env.Failure? then Failure(env.error)
      else if spawnOptions.Failure? then Failure(spawnOptions.error)
      else if workingDirectory.Failure? then Failure(workingDirectory.error)
      else if timeout.Failure? then Failure(timeout.error)
      else
        Success(ResolveSpalidate(cwd, configDir, Some(SpalidateConfig(
          command.value, args.value, env.value, spawnOptions.value, workingDirectory.value, timeout.value))))
  }

  /** `resolvePath(value)` on an unchecked value: a falsy value is `undefined`, a string
      is resolved, and any other truthy value makes `path.resolve` throw. */
  function LoosePath(cwd: AbsolutePath, configDir: string, v: Value, field: string): (r: Result<Option<string>, Error>)
    ensures r.Failure? <==> Truthy(v) && !v.Str?
    ensures r.Success? ==> r.value == ResolvePath(cwd, configDir, if v.Str? then Some(v.s) else None)
  {
    if !Truthy(v) then Success(None)
    else if v.Str? then Success(ResolvePath(cwd, configDir, Some(v.s)))
    else Failure(TypeMismatch(field))
  }

  /** A database property after `assertField`: only a string fits the record, and any
      other value is a type mismatch naming the field. */
  function LooseString(v: Value, field: string): (r: Result<string, Error>)
    ensures r.Success? <==> v.Str?
    ensures r.Success? ==> r.value == v.s
    ensures r.Failure? ==> r.error == TypeMismatch(field)
  {
    if v.Str? then Success(v.s) else Failure(TypeMismatch(field))
  }

  /** The object `parseConfig` returns, built in source order: the `spalidate` block
      first, then `schemaFile`, `defaultExpectedData` and the `database` copy. */
  function LooseConfig(cwd: AbsolutePath, configDir: string, doc: Value): Result<ResolvedConfig, Error> {
    var spalidate := LooseSpalidate(cwd, configDir, Field(doc, "spalidate"));
    var schemaFile := LoosePath(cwd, configDir, Field(doc, "schemaFile"), "schemaFile");
    var defaultExpectedData := LoosePath(cwd, configDir, Field(doc, "defaultExpectedData"), "defaultExpectedData");
    var db := Field(doc, "database");
    var projectId := LooseString(Field(db, "projectId"), "database.projectId");
    var instanceId := LooseString(Field(db, "instanceId"), "database.instanceId");
    var database := LooseString(Field(db, "database"), "database.database");
    if spalidate.Failure? then Failure(spalidate.error)
    else if schemaFile.Failure? then Failure(schemaFile.error)
    else if defaultExpectedData.Failure? then Failure(defaultExpectedData.error)
    else if projectId.Failure? then Failure(projectId.error)
    else if instanceId.Failure? then Failure(instanceId.error)
    else if database.Failure? then Failure(database.error)
    else
      Success(ResolvedConfig(
        schemaFile.value, defaultExpectedData.value,
        DatabaseConfig(projectId.value, instanceId.value, database.value),
        spalidate.value, configDir))
  }

  /** `parseConfig(raw, configPath)`: a YAML error, then an empty or falsy document, both
      raised as the package's base error, then the field assertions in order, then the object. */
  function ParseConfigLoose(cwd: AbsolutePath, document: YamlDocument, configPath: string): Result<ResolvedConfig, Error> {
    match document
    case SyntaxError(message) => Failure(PackageError(YamlSyntax(message)))
    case Document(doc) =>
      if !Truthy(doc) then Failure(PackageError(EmptyDocument))
      else
        var asserted := AssertFields(RawChecks(doc));
        if asserted.Fail? then Failure(asserted.error)
        else LooseConfig(cwd, Dirname(configPath), doc)
  }

  /** A syntax error and an empty document fail with the package's base error (not the
      closure loader's parsing error); otherwise the first
      of `schemaFile`, `database`, `database.projectId`, `database.instanceId` and
      `database.database` that is `null`, `undefined` or blank fails as missing. */
  lemma ParseLooseFailures(cwd: AbsolutePath, document: YamlDocument, configPath: string)
    ensures var r := ParseConfigLoose(cwd, document, configPath);
      && (document.SyntaxError? ==> r == Failure(PackageError(YamlSyntax(document.message))))
      && (document.Document? && !Truthy(document.value) ==> r == Failure(PackageError(EmptyDocument)))
      && (document.Document? && Truthy(document.value) && AssertFields(RawChecks(document.value)).Fail? ==>
            exists i :: 0 <= i < 5 && r == Failure(MissingField(RawChecks(document.value)[i].name))
                        && AssertField(RawChecks(document.value)[i]).Fail?
                        && forall j :: 0 <= j < i ==> AssertField(RawChecks(document.value)[j]).Pass?)
      && (r.Success? ==> document.Document? && Truthy(document.value) && AssertFields(RawChecks(document.value)).Pass?)
  {
  }

  /** A missing `schemaFile` is reported before anything about `database`. */
  lemma SchemaFileAssertedFirst(cwd: AbsolutePath, doc: Value, configPath: string)
    requires Truthy(doc)
    requires IsNullish(Field(doc, "schemaFile"))
    ensures ParseConfigLoose(cwd, Document(doc), configPath) == Failure(MissingField("schemaFile"))
  {
  }

  /** On success a `schemaFile` string is resolved against `dirname(configPath)` (a
      falsy non-string such as `0` passes `assertField` and leaves it absent), a
      non-empty string `defaultExpectedData` is resolved there too and anything falsy
      is absent, and the database record holds the three strings as written. */
  lemma ParsedLooseContents(cwd: AbsolutePath, doc: Value, configPath: string)
    requires ParseConfigLoose(cwd, Document(doc), configPath).Success?
    ensures var c := ParseConfigLoose(cwd, Document(doc), configPath).value;
      var db := Field(doc, "database");
      && c.configDir == Dirname(configPath)
      && (Field(doc, "schemaFile").Str? ==> c.schemaFile == Some(Resolve(cwd, [c.configDir, Field(doc, "schemaFile").s])))
      && (!Field(doc, "schemaFile").Str? ==> c.schemaFile.None?)
      && c.defaultExpectedData ==
           (if Field(doc, "defaultExpectedData").Str? && Field(doc, "defaultExpectedData").s != ""
            then Some(Resolve(cwd, [c.configDir, Field(doc, "defaultExpectedData").s]))
            else None)
      && c.database == DatabaseConfig(Field(db, "projectId").s, Field(db, "instanceId").s, Field(db, "database").s)
      && !IsBlank(c.database.projectId) && !IsBlank(c.database.instanceId) && !IsBlank(c.database.database)
  {
    var checks := RawChecks(doc);
    assert AssertField(checks[2]).Pass? && AssertField(checks[3]).Pass? && AssertField(checks[4]).Pass?;
  }

  /** A block holding only `timeout` becomes the no-override block with that timeout. */
  lemma LooseTimeoutBlock(cwd: AbsolutePath, configDir: string, t: int)
    ensures LooseSpalidate(cwd, configDir, Obj(map["timeout" := Num(t)])) == Success(Some(NoOverrides.(timeout := Some(t))))
  {
    var sp := Obj(map["timeout" := Num(t)]);
    assert Field(sp, "timeout") == Num(t);
    assert Field(sp, "command") == Undefined && Field(sp, "args") == Undefined && Field(sp, "env") == Undefined;
    assert Field(sp, "spawnOptions") == Undefined && Field(sp, "workingDirectory") == Undefined;
  }

  /** A parsed configuration holds the `spalidate` block as `LooseSpalidate` reads it. */
  lemma LooseSpalidateKept(cwd: AbsolutePath, doc: Value, configPath: string)
    requires ParseConfigLoose(cwd, Document(doc), configPath).Success?
    ensures var sp := LooseSpalidate(cwd, Dirname(configPath), Field(doc, "spalidate"));
      sp.Success? && ParseConfigLoose(cwd, Document(doc), configPath).value.spalidate == sp.value
  {
  }

  /** Only the class loader carries `spalidate.timeout` through: the schema-checked
      closure loader drops it. */
  lemma TimeoutKeptOnlyByClassLoader(cwd: AbsolutePath, doc: Value, configPath: string, t: int)
    requires Field(doc, "spalidate") == Obj(map["timeout" := Num(t)])
    ensures ParseConfigLoose(cwd, Document(doc), configPath).Success? ==>
              ParseConfigLoose(cwd, Document(doc), configPath).value.spalidate == Some(NoOverrides.(timeout := Some(t)))
    ensures ClosureLoader.ParseConfig(cwd, Document(doc), configPath).Success? ==>
              ClosureLoader.ParseConfig(cwd, Document(doc), configPath).value.spalidate == Some(NoOverrides)
  {
    if ParseConfigLoose(cwd, Document(doc), configPath).Success? {
      LooseSpalidateKept(cwd, doc, configPath);
      LooseTimeoutBlock(cwd, Dirname(configPath), t);
    }
    if ClosureLoader.ParseConfig(cwd, Document(doc), configPath).Success? {
      var sp := Field(doc, "spalidate");
      assert Field(sp, "command") == Undefined && Field(sp, "args") == Undefined && Field(sp, "env") == Undefined;
      assert Field(sp, "spawnOptions") == Undefined && Field(sp, "workingDirectory") == Undefined;
      ClosureLoader.ParsedConfigContents(cwd, doc, configPath);
    }
  }

  // ---------------------------------------------------------------------------
  // The cache

  datatype ClassState = ClassState(
    configPath: Option<string>,
    cachedConfig: Option<ResolvedConfig>,
    cachedPath: Option<string>)

  datatype ClassStep = ClassStep(result: Result<ResolvedConfig, Error>, next: ClassState)

  /** `load(force)` */
  function ClassLoadStep(s: ClassState, host: Host, force: bool): ClassStep {
    if !force && s.cachedConfig.Some? then ClassStep(Success(s.cachedConfig.value), s)
    else
      match ResolveConfigPath(s.configPath, host)
      case Failure(e) => ClassStep(Failure(e), s)
      case Success(path) =>
        match ParseConfigLoose(host.cwd, Entry(host, path).document, path)
        case Failure(e) => ClassStep(Failure(e), s)
        case Success(c) => ClassStep(Success(c), s.(cachedConfig := Some(c), cachedPath := Some(path)))
  }

  /** `setConfigPath(configPath)` */
  function ClassSetConfigPath(s: ClassState, configPath: Option<string>): ClassState {
    if IsTruthy(configPath) then ClassState(configPath, None, None) else s
  }

  class ConfigLoader {
    var configPath: Option<string>
    var cachedConfig: Option<ResolvedConfig>
    var cachedPath: Option<string>

    function State(): ClassState
      reads this
    {
      ClassState(configPath, cachedConfig, cachedPath)
    }

    /** `new ConfigLoader(options)`: only `options.configPath` is ever read. */
    constructor (configPath: Option<string>)
      ensures State() == ClassState(configPath, None, None)
    {
      this.configPath := configPath;
      cachedConfig := None;
      cachedPath := None;
    }

    /** `setConfigPath(configPath)` */
    method SetConfigPath(path: Option<string>)
      modifies this
      ensures State() == ClassSetConfigPath(old(State()), path)
    {
      if path.Some? && path.value != "" {
        configPath := path;
        cachedConfig := None;
        cachedPath := None;
      }
    }

    /** `load(force)` */
    method Load(host: Host, force: bool) returns (r: Result<ResolvedConfig, Error>)
      modifies this
      ensures r == ClassLoadStep(old(State()), host, force).result
      ensures State() == ClassLoadStep(old(State()), host, force).next
    {
      if !force && cachedConfig.Some? {
        return Success(cachedConfig.value);
      }
      var resolved := ResolveConfigPath(configPath, host);
      if resolved.Failure? {
        return Failure(resolved.error);
      }
      var path := resolved.value;
      var parsed := ParseConfigLoose(host.cwd, Entry(host, path).document, path);
      if parsed.Failure? {
        return parsed;
      }
      cachedConfig := Some(parsed.value);
      cachedPath := Some(path);
      return parsed;
    }

    /** `clear()` */
    method Clear()
      modifies this
      ensures State() == old(State()).(cachedConfig := None, cachedPath := None)
    {
      cachedConfig := None;
      cachedPath := None;
    }
  }

  // ---------------------------------------------------------------------------
  // Properties

  /** An unforced load with a filled cache returns it without looking at the file
      system at all: any two hosts give the same step, which changes nothing. */
  lemma CacheHitIgnoresHost(s: ClassState, host: Host, other: Host)
    requires s.cachedConfig.Some?
    ensures ClassLoadStep(s, host, false) == ClassLoadStep(s, other, false)
    ensures ClassLoadStep(s, host, false) == ClassStep(Success(s.cachedConfig.value), s)
  {
  }

  /** A forced load, or any load with an empty cache, resolves, reads and parses, and
      caches the result together with its path; a failure changes nothing. */
  lemma ReloadCaches(s: ClassState, host: Host, force: bool)
    requires force || s.cachedConfig.None?
    ensures var step := ClassLoadStep(s, host, force);
      && (step.result.Failure? ==> step.next == s)
      && (step.result.Success? ==>
            && ResolveConfigPath(s.configPath, host).Success?
            && var path := ResolveConfigPath(s.configPath, host).value;
               && step.result == ParseConfigLoose(host.cwd, Entry(host, path).document, path)
               && step.next == ClassState(s.configPath, Some(step.result.value), Some(path)))
  {
  }

  /** `setConfigPath` with a non-empty path replaces it and empties the cache; a falsy
      one changes nothing. */
  lemma ClassSetConfigPathResets(s: ClassState, path: Option<string>)
    ensures IsTruthy(path) ==> ClassSetConfigPath(s, path) == ClassState(path, None, None)
    ensures !IsTruthy(path) ==> ClassSetConfigPath(s, path) == s
    ensures IsTruthy(path) ==> ClassSetConfigPath(s, path).configPath == path && ClassSetConfigPath(s, path).cachedConfig.None?
  {
  }

  /** The two loaders part ways on a file rewritten behind a filled cache: the closure
      loader sees the new modification time and reparses, the class loader returns its cache. */
  lemma LoadersDifferOnRewrittenFile(configPath: Option<string>, host: Host, cached: ResolvedConfig, path: string, mtime: int)
    requires ResolveConfigPath(configPath, host) == Success(path)
    requires Entry(host, path).mtime != mtime
    ensures ClosureLoader.LoadStep(ClosureLoader.LoaderState(configPath, Some(cached), Some(path), Some(mtime)), host, false).result
              == ClosureLoader.ParseConfig(host.cwd, Entry(host, path).document, path)
    ensures ClassLoadStep(ClassState(configPath, Some(cached), Some(path)), host, false).result == Success(cached)
  {
  }
}
