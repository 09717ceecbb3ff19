/** The steps both configuration loaders, `src/config-loader.ts` and `src/config.ts`,
    share with identical bodies: finding the configuration file, `assertField`,
    `resolvePath` against the configuration directory and `resolveSpalidate`. */
module ConfigResolution {
  import opened Wrappers
  import opened JsValue
  import opened JsString
  import opened PosixPath
  import opened ConfigTypes
  import opened Environment

  const ConfigFileName := "playwright-spanner-assert.yaml"

  /** A string option used with `||`: present and not `''`. */
  predicate IsTruthy(o: Option<string>) {
    o.Some? && o.value != ""
  }

  /** `options.configPath || process.env.PLAYWRIGHT_SPANNER_ASSERT_CONFIG ||
      path.join(process.cwd(), 'playwright-spanner-assert.yaml')`; the working
      directory is absolute, so joining onto it is resolving against it. */
  function ConfigCandidate(configPath: Option<string>, host: Host): string {
    if IsTruthy(configPath) then configPath.value
    else if IsTruthy(ConfigEnv(host)) then ConfigEnv(host).value
    else Resolve(host.cwd, [ConfigFileName])
  }

  /** `resolveConfigPath()`: the candidate, provided `fs.access` finds it. */
  function ResolveConfigPath(configPath: Option<string>, host: Host): Result<string, Error> {
    var candidate := ConfigCandidate(configPath, host);
    if Exists(host, candidate) then Success(candidate) else Failure(ConfigurationNotFound(candidate))
  }

  /** Discovery order: a non-empty explicit path, else a non-empty environment variable,
      else the default file in the working directory; a candidate that is not there is
      reported by name, and a returned one is there. */
  lemma DiscoveryOrder(configPath: Option<string>, host: Host)
    ensures var r := ResolveConfigPath(configPath, host);
      && (IsTruthy(configPath) ==> ConfigCandidate(configPath, host) == configPath.value)
      && (!IsTruthy(configPath) && ConfigEnvVar in host.env && host.env[ConfigEnvVar] != "" ==>
            ConfigCandidate(configPath, host) == host.env[ConfigEnvVar])
      && (!IsTruthy(configPath) && (ConfigEnvVar !in host.env || host.env[ConfigEnvVar] == "") ==>
            ConfigCandidate(configPath, host) == Resolve(host.cwd, [ConfigFileName]))
      && (r.Success? ==> r.value == ConfigCandidate(configPath, host) && Exists(host, r.value))
      && (r.Failure? <==> !Exists(host, ConfigCandidate(configPath, host)))
      && (r.Failure? ==> r.error == ConfigurationNotFound(ConfigCandidate(configPath, host)))
  {
  }

  /** One `assertField(value, name)` call. */
  datatype FieldCheck = FieldCheck(value: Value, name: string)

  /** `assertField`: `null`, `undefined` and a string that trims to `''` are missing;
      any other value, whatever its type, passes. */
  function AssertField(check: FieldCheck): (r: Outcome<Error>)
    ensures r.Fail? <==> IsNullish(check.value) || (check.value.Str? && IsBlank(check.value.s))
    ensures r.Fail? ==> r.error == MissingField(check.name)
  {
    if IsNullish(check.value) || (check.value.Str? && Trim(check.value.s) == "") then Fail(MissingField(check.name))
    else Pass
  }

  /** A run of `assertField` calls: the first that fails throws, naming its field. */
  function AssertFields(checks: seq<FieldCheck>): (r: Outcome<Error>)
    ensures r.Pass? <==> forall i :: 0 <= i < |checks| ==> AssertField(checks[i]).Pass?
    ensures r.Fail? ==> exists i :: 0 <= i < |checks| && r == AssertField(checks[i])
                                    && forall j :: 0 <= j < i ==> AssertField(checks[j]).Pass?
    decreases |checks|
  {
    if checks == [] then Pass
    else if AssertField(checks[0]).Fail? then AssertField(checks[0])
    else
      AssertFields(checks[1..])
  }

  /** `resolvePath(value)`: a non-empty path is resolved against the configuration
      directory; an absent or empty one becomes `undefined`. */
  function ResolvePath(cwd: AbsolutePath, configDir: string, value: Option<string>): (r: Option<string>)
    ensures r.Some? <==> IsTruthy(value)
    ensures r.Some? ==> IsAbsolute(r.value)
  {
    if IsTruthy(value) then Some(Resolve(cwd, [configDir, value.value])) else None
  }

  /** A resolved path is absolute and normal: an absolute value is kept as it is
      written once normalised, and resolving the result again changes nothing. */
  lemma ResolvePathNormal(cwd: AbsolutePath, configDir: string, value: Option<string>)
    requires IsTruthy(value)
    ensures IsAbsolute(value.value) ==> ResolvePath(cwd, configDir, value) == Some(Resolve(cwd, [value.value]))
    ensures ResolvePath(cwd, configDir, ResolvePath(cwd, configDir, value)) == ResolvePath(cwd, configDir, value)
  {
    var r := Resolve(cwd, [configDir, value.value]);
    var segs := ResolveSegments(cwd, [configDir, value.value]);
    if IsAbsolute(value.value) {
      assert Anchor(cwd, [configDir, value.value]) == value.value;
    }
    assert Anchor(cwd, [configDir, r]) == r;
    ResolveRendered(cwd, segs);
  }

  /** `resolveSpalidate(cfg, configDir)`: no block stays none; otherwise a copy in which
      only a non-empty `workingDirectory` is rewritten against the configuration directory. */
  function ResolveSpalidate(cwd: AbsolutePath, configDir: string, cfg: Option<SpalidateConfig>): (r: Option<SpalidateConfig>)
    ensures r.Some? <==> cfg.Some?
    ensures r.Some? ==> r.value == cfg.value.(workingDirectory := r.value.workingDirectory)
    ensures r.Some? ==>
      r.value.workingDirectory == (if IsTruthy(cfg.value.workingDirectory)
                                   then ResolvePath(cwd, configDir, cfg.value.workingDirectory)
                                   else cfg.value.workingDirectory)
  {
    if cfg.None? then None
    else if IsTruthy(cfg.value.workingDirectory) then
      Some(cfg.value.(workingDirectory := Some(Resolve(cwd, [configDir, cfg.value.workingDirectory.value]))))
    else cfg
  }
}
