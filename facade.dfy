/** The class facade of `src/playwright-spanner-assert.ts`: a `PlaywrightSpannerAssert`
    over the class loader of `src/config.ts`, whose expected-data resolution checks only
    that a file is there, without the configuration-directory guard of the client. */
module Facade {
  import opened Wrappers
  import opened JsString
  import opened PosixPath
  import opened ConfigTypes
  import opened Environment
  import opened PathGuard
  import opened ConfigResolution
  import opened SpalidateRunner
  import opened ClassLoader
  import Client

  /** The path reported when no path was given and no default is configured. */
  const NoDefaultMessage := "デフォルトの期待データファイルが設定されていません"

  /** The first of `candidates` that is there, if any. */
  function FirstExisting(host: Host, candidates: seq<string>): (r: Option<string>)
    ensures r.None? <==> forall i :: 0 <= i < |candidates| ==> !Exists(host, candidates[i])
    ensures r.Some? ==> exists i :: 0 <= i < |candidates| && r.value == candidates[i] && Exists(host, r.value)
                          && forall j :: 0 <= j < i ==> !Exists(host, candidates[j])
    decreases |candidates|
  {
    if candidates == [] then None
    else if Exists(host, candidates[0]) then Some(candidates[0])
    else FirstExisting(host, candidates[1..])
  }

  /** The two candidates tried for a caller's path, in order. */
  function CallerCandidates(trimmed: string, config: ResolvedConfig, host: Host): seq<string> {
    [Resolve(host.cwd, [config.configDir, trimmed]), Resolve(host.cwd, [host.cwd, trimmed])]
  }

  /** `resolveExpectedFile(rawPath, config)` of the class facade. */
  function ResolveExpectedFile(rawPath: Option<string>, config: ResolvedConfig, host: Host): Result<string, Error> {
    var trimmed := Client.TrimmedPath(rawPath);
    if |trimmed| > 0 then
      match FirstExisting(host, CallerCandidates(trimmed, config, host))
      case Some(found) => Success(found)
      case None => Failure(ExpectedDataNotFound(trimmed))
    else if IsTruthy(config.defaultExpectedData) then
      if Exists(host, config.defaultExpectedData.value) then Success(config.defaultExpectedData.value)
      else Failure(ExpectedDataNotFound(config.defaultExpectedData.value))
    else Failure(ExpectedDataNotFound(NoDefaultMessage))
  }

  /** `resolveExpectedFile` as the source runs it, with its loop over the candidates. */
  method FindExpectedFile(rawPath: Option<string>, config: ResolvedConfig, host: Host) returns (r: Result<string, Error>)
    ensures r == ResolveExpectedFile(rawPath, config, host)
  {
    var trimmed := if rawPath.Some? then Trim(rawPath.value) else "";
    if |trimmed| > 0 {
      var candidates := [Resolve(host.cwd, [config.configDir, trimmed]), Resolve(host.cwd, [host.cwd, trimmed])];
      var i := 0;
      while i < |candidates|
        invariant 0 <= i <= |candidates|
        invariant FirstExisting(host, candidates) == FirstExisting(host, candidates[i..])
      {
        if Exists(host, candidates[i]) {
          return Success(candidates[i]);
        }
        assert candidates[i..][1..] == candidates[i + 1..];
        i := i + 1;
      }
      return Failure(ExpectedDataNotFound(trimmed));
    }
    if config.defaultExpectedData.Some? && config.defaultExpectedData.value != "" {
      if !Exists(host, config.defaultExpectedData.value) {
        return Failure(ExpectedDataNotFound(config.defaultExpectedData.value));
      }
      return Success(config.defaultExpectedData.value);
    }
    return Failure(ExpectedDataNotFound(NoDefaultMessage));
  }

  /** What the facade resolves: a caller's non-blank path wins over the default, tried
      under the configuration directory and then the working directory, and reported
      by its trimmed text when neither is there; otherwise the default when it is
      there, reported by name when it is not; with neither, the fixed message. */
  lemma ResolutionCases(rawPath: Option<string>, config: ResolvedConfig, host: Host)
    ensures var trimmed := Client.TrimmedPath(rawPath);
      var r := ResolveExpectedFile(rawPath, config, host);
      var c := CallerCandidates(trimmed, config, host);
      && (|trimmed| > 0 && Exists(host, c[0]) ==> r == Success(c[0]))
      && (|trimmed| > 0 && !Exists(host, c[0]) && Exists(host, c[1]) ==> r == Success(c[1]))
      && (|trimmed| > 0 && !Exists(host, c[0]) && !Exists(host, c[1]) ==> r == Failure(ExpectedDataNotFound(trimmed)))
      && (|trimmed| > 0 ==> r == ResolveExpectedFile(rawPath, config.(defaultExpectedData := None), host))
      && (|trimmed| == 0 && IsTruthy(config.defaultExpectedData) ==>
            r == if Exists(host, config.defaultExpectedData.value) then Success(config.defaultExpectedData.value)
                 else Failure(ExpectedDataNotFound(config.defaultExpectedData.value)))
      && (|trimmed| == 0 && !IsTruthy(config.defaultExpectedData) ==> r == Failure(ExpectedDataNotFound(NoDefaultMessage)))
  {
    var trimmed := Client.TrimmedPath(rawPath);
    var c := CallerCandidates(trimmed, config, host);
    assert c[1..][1..] == [];
  }

  /** Whatever the facade returns is there. */
  lemma FoundFileExists(rawPath: Option<string>, config: ResolvedConfig, host: Host)
    requires ResolveExpectedFile(rawPath, config, host).Success?
    ensures Exists(host, ResolveExpectedFile(rawPath, config, host).value)
  {
  }

  /** The facade has no configuration-directory guard: when the caller's path escapes
      the configuration directory and is there, the client refuses it, naming it,
      while the facade returns it. */
  lemma FacadesDifferOnEscapingPath(rawPath: Option<string>, config: ResolvedConfig, host: Host)
    requires |Client.TrimmedPath(rawPath)| > 0
    requires var p := Resolve(host.cwd, [config.configDir, Client.TrimmedPath(rawPath)]);
      EnsureWithinBase(host.cwd, p, config.configDir).Failure? && Exists(host, p)
    ensures var p := Resolve(host.cwd, [config.configDir, Client.TrimmedPath(rawPath)]);
      && Client.ResolveExpectedFile(rawPath, config, host) == Failure(ExpectedDataNotFound(p))
      && ResolveExpectedFile(rawPath, config, host) == Success(p)
  {
    Client.EscapeStopsSearch(rawPath, config, host);
    ResolutionCases(rawPath, config, host);
  }

  /** `validateDatabaseState(expectedDataPath)` of the facade: load, resolve, run. */
  function ValidateOutcome(s: ClassState, rawPath: Option<string>, host: Host,
                           process: SpawnRequest -> ProcessEvent): Outcome<Error> {
    match ClassLoadStep(s, host, false).result
    case Failure(e) => Fail(e)
    case Success(config) =>
      match ResolveExpectedFile(rawPath, config, host)
      case Failure(e) => Fail(e)
      case Success(expectedFile) => RunSpalidate(config, expectedFile, host, process)
  }

  /** A failed load or resolution is the outcome whatever the child process would do;
      a resolved file is checked, and the check passes exactly when the process exits
      with 0. */
  lemma StagesInOrder(s: ClassState, rawPath: Option<string>, host: Host,
                      process: SpawnRequest -> ProcessEvent, other: SpawnRequest -> ProcessEvent)
    ensures var load := ClassLoadStep(s, host, false).result;
      && (load.Failure? ==> ValidateOutcome(s, rawPath, host, process) == Fail(load.error))
      && (load.Failure? || ResolveExpectedFile(rawPath, load.value, host).Failure? ==>
            ValidateOutcome(s, rawPath, host, process) == ValidateOutcome(s, rawPath, host, other))
      && (load.Success? && ResolveExpectedFile(rawPath, load.value, host).Success? ==>
            var e := process(PlanSpawn(load.value, ResolveExpectedFile(rawPath, load.value, host).value, host));
            (ValidateOutcome(s, rawPath, host, process).Pass? <==> e.Exited? && e.code == Some(0)))
  {
    var load := ClassLoadStep(s, host, false).result;
    if load.Success? && ResolveExpectedFile(rawPath, load.value, host).Success? {
      RunPassesIffExitZero(load.value, ResolveExpectedFile(rawPath, load.value, host).value, host, process);
    }
  }

  /** `PlaywrightSpannerAssert` */
  class PlaywrightSpannerAssert {
    const loader: ConfigLoader

    /** `new PlaywrightSpannerAssert(options)`: a new class loader. */
    constructor (configPath: Option<string>)
      ensures fresh(loader) && loader.State() == ClassState(configPath, None, None)
    {
      loader := new ConfigLoader(configPath);
    }

    /** `setConfigPath(configPath)` */
    method SetConfigPath(configPath: string)
      modifies loader
      ensures loader.State() == ClassSetConfigPath(old(loader.State()), Some(configPath))
    {
      loader.SetConfigPath(Some(configPath));
    }

    /** `validateDatabaseState(expectedDataPath)` */
    method ValidateDatabaseState(rawPath: Option<string>, host: Host, process: SpawnRequest -> ProcessEvent)
      returns (r: Outcome<Error>)
      modifies loader
      ensures r == ValidateOutcome(old(loader.State()), rawPath, host, process)
      ensures loader.State() == ClassLoadStep(old(loader.State()), host, false).next
    {
      var config := loader.Load(host, false);
      if config.Failure? {
        return Fail(config.error);
      }
      var expectedFile := FindExpectedFile(rawPath, config.value, host);
      if expectedFile.Failure? {
        return Fail(expectedFile.error);
      }
      return RunSpalidate(config.value, expectedFile.value, host, process);
    }

    /** `reloadConfig()`: `load(true)` */
    method ReloadConfig(host: Host) returns (r: Result<ResolvedConfig, Error>)
      modifies loader
      ensures r == ClassLoadStep(old(loader.State()), host, true).result
      ensures loader.State() == ClassLoadStep(old(loader.State()), host, true).next
    {
      r := loader.Load(host, true);
    }

    /** `getConfig()`: `load()` */
    method GetConfig(host: Host) returns (r: Result<ResolvedConfig, Error>)
      modifies loader
      ensures r == ClassLoadStep(old(loader.State()), host, false).result
      ensures loader.State() == ClassLoadStep(old(loader.State()), host, false).next
    {
      r := loader.Load(host, false);
    }
  }
}
