/** The client of `src/client.ts`: `createClient` wires a closure configuration loader
    to the runner, and `resolveExpectedFile` picks the expected-data file, refusing
    any candidate that escapes the configuration directory. */
module Client {
  import opened Wrappers
  import opened JsString
  import opened PosixPath
  import opened ConfigTypes
  import opened Environment
  import opened PathGuard
  import opened ConfigResolution
  import opened SpalidateRunner
  import opened ClosureLoader

  // ---------------------------------------------------------------------------
  // Expected-data resolution

  /** `rawPath?.trim() ?? ''` */
  function TrimmedPath(rawPath: Option<string>): string {
    if rawPath.Some? then Trim(rawPath.value) else ""
  }

  /** The candidates, in the order they are tried: the caller's path resolved against
      the configuration directory and then the working directory, or else the
      configured default, or else none. */
  function Candidates(trimmed: string, config: ResolvedConfig, host: Host): (c: seq<string>)
    ensures |trimmed| > 0 ==> c == [Resolve(host.cwd, [config.configDir, trimmed]), Resolve(host.cwd, [host.cwd, trimmed])]
    ensures |trimmed| == 0 ==> c == if IsTruthy(config.defaultExpectedData) then [config.defaultExpectedData.value] else []
  {
    if |trimmed| > 0 then [Resolve(host.cwd, [config.configDir, trimmed]), Resolve(host.cwd, [host.cwd, trimmed])]
    else if IsTruthy(config.defaultExpectedData) then [config.defaultExpectedData.value]
    else []
  }

  /** `ensureWithinBase(candidate, { baseDir: configDir })`, as the search applies it. */
  function WithinConfigDir(host: Host, configDir: string): string -> Result<string, Escape> {
    candidate => EnsureWithinBase(host.cwd, candidate, configDir)
  }

  /** A candidate passes the guard and then is not there. */
  predicate Skipped(host: Host, guard: string -> Result<string, Escape>, candidate: string) {
    guard(candidate).Success? && !Exists(host, guard(candidate).value)
  }

  /** The loop over the candidates: the first that the guard refuses fails the search
      naming it, the first that is there is returned guarded, and `None` means every
      candidate was skipped. */
  function Search(host: Host, guard: string -> Result<string, Escape>, candidates: seq<string>): (r: Result<Option<string>, Error>)
    ensures r == Success(None) <==> forall i :: 0 <= i < |candidates| ==> Skipped(host, guard, candidates[i])
    decreases |candidates|
  {
    if candidates == [] then Success(None)
    else
      match guard(candidates[0])
      case Failure(_) => Failure(ExpectedDataNotFound(candidates[0]))
      case Success(guarded) =>
        if Exists(host, guarded) then Success(Some(guarded))
        else Search(host, guard, candidates[1..])
  }

  /** A candidate the search returns is the first that is not skipped, returned
      guarded, and it is there. */
  lemma {:induction false} SearchFoundIsFirst(host: Host, guard: string -> Result<string, Escape>, candidates: seq<string>)
    requires Search(host, guard, candidates).Success? && Search(host, guard, candidates).value.Some?
    ensures var f := Search(host, guard, candidates).value.value;
      exists i :: 0 <= i < |candidates|
        && guard(candidates[i]) == Success(f)
        && Exists(host, f)
        && forall j :: 0 <= j < i ==> Skipped(host, guard, candidates[j])
    decreases |candidates|
  {
    var g := guard(candidates[0]);
    if !(g.Success? && Exists(host, g.value)) {
      var rest := candidates[1..];
      SearchFoundIsFirst(host, guard, rest);
      var f := Search(host, guard, rest).value.value;
      var i :| 0 <= i < |rest| && guard(rest[i]) == Success(f)
               && Exists(host, f) && forall j :: 0 <= j < i ==> Skipped(host, guard, rest[j]);
      assert candidates[i + 1] == rest[i];
    }
  }

  /** A failed search names the first candidate that is not skipped, and the guard
      refuses that candidate. */
  lemma {:induction false} SearchFailureIsFirst(host: Host, guard: string -> Result<string, Escape>, candidates: seq<string>)
    requires Search(host, guard, candidates).Failure?
    ensures var e := Search(host, guard, candidates).error;
      exists i :: 0 <= i < |candidates|
        && guard(candidates[i]).Failure?
        && e == ExpectedDataNotFound(candidates[i])
        && forall j :: 0 <= j < i ==> Skipped(host, guard, candidates[j])
    decreases |candidates|
  {
    if guard(candidates[0]).Success? {
      var rest := candidates[1..];
      SearchFailureIsFirst(host, guard, rest);
      var e := Search(host, guard, rest).error;
      var i :| 0 <= i < |rest| && guard(rest[i]).Failure?
               && e == ExpectedDataNotFound(rest[i]) && forall j :: 0 <= j < i ==> Skipped(host, guard, rest[j]);
      assert candidates[i + 1] == rest[i];
    }
  }

  /** `trimmed.length > 0 ? trimmed : config.defaultExpectedData ?? 'unknown'` */
  function MessagePath(trimmed: string, config: ResolvedConfig): string {
    if |trimmed| > 0 then trimmed else config.defaultExpectedData.GetOr("unknown")
  }

  /** `resolveExpectedFile(rawPath, config)` */
  function ResolveExpectedFile(rawPath: Option<string>, config: ResolvedConfig, host: Host): Result<string, Error> {
    var trimmed := TrimmedPath(rawPath);
    match Search(host, WithinConfigDir(host, config.configDir), Candidates(trimmed, config, host))
    case Failure(e) => Failure(e)
    case Success(found) =>
      if found.Some? then Success(found.value) else Failure(ExpectedDataNotFound(MessagePath(trimmed, config)))
  }

  /** `resolveExpectedFile` as the source runs it: the candidate list is built by
      pushing, then tried in order with an early return or throw. */
  method FindExpectedFile(rawPath: Option<string>, config: ResolvedConfig, host: Host) returns (r: Result<string, Error>)
    ensures r == ResolveExpectedFile(rawPath, config, host)
  {
    var trimmed := TrimmedPath(rawPath);
    var candidates := Candidates(trimmed, config, host);
    var guard := WithinConfigDir(host, config.configDir);
    var i := 0;
    while i < |candidates|
      invariant 0 <= i <= |candidates|
      invariant Search(host, guard, candidates) == Search(host, guard, candidates[i..])
    {
      var guarded := guard(candidates[i]);
      if guarded.Failure? {
        return Failure(ExpectedDataNotFound(candidates[i]));
      }
      if Exists(host, guarded.value) {
        return Success(guarded.value);
      }
      assert candidates[i..][1..] == candidates[i + 1..];
      i := i + 1;
    }
    return Failure(ExpectedDataNotFound(MessagePath(trimmed, config)));
  }

  /** A candidate the search returns lies at or below the base directory and is there. */
  lemma SearchFoundWithinBase(host: Host, configDir: string, candidates: seq<string>)
    requires var guard := WithinConfigDir(host, configDir);
      Search(host, guard, candidates).Success? && Search(host, guard, candidates).value.Some?
    ensures var f := Search(host, WithinConfigDir(host, configDir), candidates).value.value;
      && IsPrefix(ResolveSegments(host.cwd, [configDir]), ResolveSegments(host.cwd, [f]))
      && Exists(host, f)
  {
    var guard := WithinConfigDir(host, configDir);
    SearchFoundIsFirst(host, guard, candidates);
    var f := Search(host, guard, candidates).value.value;
    var i :| 0 <= i < |candidates| && guard(candidates[i]) == Success(f)
             && Exists(host, f) && forall j :: 0 <= j < i ==> Skipped(host, guard, candidates[j]);
    assert EnsureWithinBase(host.cwd, candidates[i], configDir) == Success(f);
    AcceptedLiesWithinBase(host.cwd, candidates[i], configDir);
    ResolveRendered(host.cwd, ResolveSegments(host.cwd, [candidates[i]]));
  }

  /** Any returned path lies at or below the configuration directory and is there. */
  lemma ExpectedFileWithinConfigDir(rawPath: Option<string>, config: ResolvedConfig, host: Host)
    requires ResolveExpectedFile(rawPath, config, host).Success?
    ensures var f := ResolveExpectedFile(rawPath, config, host).value;
      && IsPrefix(ResolveSegments(host.cwd, [config.configDir]), ResolveSegments(host.cwd, [f]))
      && Exists(host, f)
  {
    SearchFoundWithinBase(host, config.configDir, Candidates(TrimmedPath(rawPath), config, host));
  }

  /** A first candidate that escapes the configuration directory fails the search at
      once, naming it, even when the second candidate is there. */
  lemma EscapeStopsSearch(rawPath: Option<string>, config: ResolvedConfig, host: Host)
    requires |TrimmedPath(rawPath)| > 0
    requires EnsureWithinBase(host.cwd, Resolve(host.cwd, [config.configDir, TrimmedPath(rawPath)]), config.configDir).Failure?
    ensures ResolveExpectedFile(rawPath, config, host) ==
              Failure(ExpectedDataNotFound(Resolve(host.cwd, [config.configDir, TrimmedPath(rawPath)])))
  {
  }

  /** When every candidate is skipped the error names the trimmed path, else the
      default, else `unknown`. */
  lemma NotFoundNamesPath(rawPath: Option<string>, config: ResolvedConfig, host: Host)
    requires var c := Candidates(TrimmedPath(rawPath), config, host);
      forall i :: 0 <= i < |c| ==> Skipped(host, WithinConfigDir(host, config.configDir), c[i])
    ensures ResolveExpectedFile(rawPath, config, host) == Failure(ExpectedDataNotFound(
              if |TrimmedPath(rawPath)| > 0 then TrimmedPath(rawPath)
              else if config.defaultExpectedData.Some? then config.defaultExpectedData.value
              else "unknown"))
  {
  }

  /** A default that is configured, within the configuration directory and there is
      used for an empty or blank caller path. */
  lemma DefaultUsedForBlankPath(rawPath: Option<string>, config: ResolvedConfig, host: Host)
    requires rawPath.None? || IsBlank(rawPath.value)
    requires IsTruthy(config.defaultExpectedData)
    requires EnsureWithinBase(host.cwd, config.defaultExpectedData.value, config.configDir).Success?
    requires Exists(host, Resolve(host.cwd, [config.defaultExpectedData.value]))
    ensures ResolveExpectedFile(rawPath, config, host) == Success(Resolve(host.cwd, [config.defaultExpectedData.value]))
  {
    AcceptedLiesWithinBase(host.cwd, config.defaultExpectedData.value, config.configDir);
  }

  /** A caller path of names below the configuration directory, not beginning with
      `..`, resolves there first when that file is there. */
  lemma CallerPathUnderConfigDir(names: seq<string>, config: ResolvedConfig, host: Host)
    requires |names| >= 1 && AllNames(names) && !StartsWith(names[0], "..")
    requires Trim(JoinSegments(names)) == JoinSegments(names)
    requires Exists(host, Resolve(host.cwd, [config.configDir, JoinSegments(names)]))
    ensures ResolveExpectedFile(Some(JoinSegments(names)), config, host) ==
              Success(Resolve(host.cwd, [config.configDir, JoinSegments(names)]))
  {
    JoinIsRelative(names);
    ChildOfBaseAccepted(host.cwd, config.configDir, names);
  }

  // ---------------------------------------------------------------------------
  // The client

  /** `validateDatabaseState(expectedDataPath)`: load, resolve, run, each stage only
      when the one before succeeded; `process` stands for the child process. */
  function ValidateOutcome(s: LoaderState, rawPath: Option<string>, host: Host,
                           process: SpawnRequest -> ProcessEvent): Outcome<Error> {
    match LoadStep(s, host, false).result
    case Failure(e) => Fail(e)
    case Success(config) =>
      match ResolveExpectedFile(rawPath, config, host)
      case Failure(e) => Fail(e)
      case Success(expectedFile) => RunSpalidate(config, expectedFile, host, process)
  }

  /** The object `createClient` returns, over the loader it was given or created. */
  class PlaywrightSpannerAssertClient {
    const loader: ConfigLoader

    /** `createClient(options)`: a provided loader is used as it is; otherwise a new
        one is created from the remaining options. */
    constructor (provided: Option<ConfigLoader>, configPath: Option<string>)
      ensures provided.Some? ==> loader == provided.value
      ensures provided.None? ==> fresh(loader) && loader.State() == LoaderState(configPath, None, None, None)
    {
      if provided.Some? {
        loader := provided.value;
      } else {
        loader := new ConfigLoader(configPath);
      }
    }

    /** `setConfigPath(configPath)` */
    method SetConfigPath(configPath: string)
      modifies loader
      ensures loader.State() == SetConfigPathStep(old(loader.State()), Some(configPath))
    {
      loader.SetConfigPath(Some(configPath));
    }

    /** `validateDatabaseState(expectedDataPath)` */
    method ValidateDatabaseState(rawPath: Option<string>, host: Host, process: SpawnRequest -> ProcessEvent)
      returns (r: Outcome<Error>)
      modifies loader
      ensures r == ValidateOutcome(old(loader.State()), rawPath, host, process)
      ensures loader.State() == LoadStep(old(loader.State()), host, false).next
    {
      var config := loader.Load(host, false);
      if config.Failure? {
        return Fail(config.error);
      }
      var expectedFile := FindExpectedFile(rawPath, config.value, host);
      if expectedFile.Failure? {
        return Fail(expectedFile.error);
      }
      return RunSpalidate(config.value, expectedFile.value, host, process);
    }

    /** `reloadConfig()`: `load(true)` */
    method ReloadConfig(host: Host) returns (r: Result<ResolvedConfig, Error>)
      modifies loader
      ensures r == LoadStep(old(loader.State()), host, true).result
      ensures loader.State() == LoadStep(old(loader.State()), host, true).next
    {
      r := loader.Load(host, true);
    }

    /** `getConfig()`: `load()` */
    method GetConfig(host: Host) returns (r: Result<ResolvedConfig, Error>)
      modifies loader
      ensures r == LoadStep(old(loader.State()), host, false).result
      ensures loader.State() == LoadStep(old(loader.State()), host, false).next
    {
      r := loader.Load(host, false);
    }
  }

  /** The stages run in order and a failure stops the ones after it: a failed load or
      resolution is the outcome whatever the child process would do; otherwise the
      outcome is the run's, for the resolved file. */
  lemma StagesInOrder(s: LoaderState, rawPath: Option<string>, host: Host,
                      process: SpawnRequest -> ProcessEvent, other: SpawnRequest -> ProcessEvent)
    ensures var load := LoadStep(s, host, false).result;
      && (load.Failure? ==> ValidateOutcome(s, rawPath, host, process) == Fail(load.error))
      && (load.Success? && ResolveExpectedFile(rawPath, load.value, host).Failure? ==>
            ValidateOutcome(s, rawPath, host, process) == Fail(ResolveExpectedFile(rawPath, load.value, host).error))
      && (load.Failure? || ResolveExpectedFile(rawPath, load.value, host).Failure? ==>
            ValidateOutcome(s, rawPath, host, process) == ValidateOutcome(s, rawPath, host, other))
      && (load.Success? && ResolveExpectedFile(rawPath, load.value, host).Success? ==>
            ValidateOutcome(s, rawPath, host, process) ==
              RunSpalidate(load.value, ResolveExpectedFile(rawPath, load.value, host).value, host, process))
  {
  }

  /** The default dataset: validating with `''` runs the checker on the configured
      default fixture when it lies in the configuration directory and is there, and
      passes when the checker exits with 0. */
  lemma DefaultDatasetValidated(s: LoaderState, host: Host, process: SpawnRequest -> ProcessEvent)
    requires LoadStep(s, host, false).result.Success?
    requires var c := LoadStep(s, host, false).result.value;
      && IsTruthy(c.defaultExpectedData)
      && EnsureWithinBase(host.cwd, c.defaultExpectedData.value, c.configDir).Success?
      && Exists(host, Resolve(host.cwd, [c.defaultExpectedData.value]))
    ensures var c := LoadStep(s, host, false).result.value;
      var f := Resolve(host.cwd, [c.defaultExpectedData.value]);
      var e := process(PlanSpawn(c, f, host));
      && ResolveExpectedFile(Some(""), c, host) == Success(f)
      && (ValidateOutcome(s, Some(""), host, process).Pass? <==> e.Exited? && e.code == Some(0))
  {
    var c := LoadStep(s, host, false).result.value;
    assert IsBlank("");
    DefaultUsedForBlankPath(Some(""), c, host);
    RunPassesIffExitZero(c, Resolve(host.cwd, [c.defaultExpectedData.value]), host, process);
  }

  /** The custom dataset: validating with `expected/custom.yaml` runs the checker on
      that file under the configuration directory when it is there. */
  lemma CustomDatasetValidated(s: LoaderState, host: Host, process: SpawnRequest -> ProcessEvent)
    requires LoadStep(s, host, false).result.Success?
    requires var c := LoadStep(s, host, false).result.value;
      Exists(host, Resolve(host.cwd, [c.configDir, "expected/custom.yaml"]))
    ensures var c := LoadStep(s, host, false).result.value;
      var f := Resolve(host.cwd, [c.configDir, "expected/custom.yaml"]);
      && ResolveExpectedFile(Some("expected/custom.yaml"), c, host) == Success(f)
      && ValidateOutcome(s, Some("expected/custom.yaml"), host, process) == RunSpalidate(c, f, host, process)
  {
    var c := LoadStep(s, host, false).result.value;
    var names := ["expected", "custom.yaml"];
    CustomPathNames();
    CustomPathJoined();
    CustomPathTrimmed();
    CallerPathUnderConfigDir(names, c, host);
  }

  lemma CustomPathNames()
    ensures var names := ["expected", "custom.yaml"];
      |names| >= 1 && AllNames(names) && !StartsWith(names[0], "..")
  {
    var names := ["expected", "custom.yaml"];
    assert IsName(names[0]) && IsName(names[1]);
    assert "expected"[..2][0] == 'e';
  }

  lemma CustomPathJoined()
    ensures JoinSegments(["expected", "custom.yaml"]) == "expected/custom.yaml"
  {
    assert JoinSegments(["expected", "custom.yaml"]) == "expected" + "/" + JoinSegments(["custom.yaml"]);
  }

  lemma CustomPathTrimmed()
    ensures Trim("expected/custom.yaml") == "expected/custom.yaml"
  {
    var p := "expected/custom.yaml";
    assert !IsWhitespace(p[0]) && !IsWhitespace(p[|p| - 1]);
    TrimKeepsUnpadded(p);
  }
}
