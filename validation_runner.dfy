/** The second runner, `src/validation.ts`: it refuses a blank command,
    substitutes placeholders inline, lets the configured spawn options override
    everything it computed, and races the child process against a timer. */
module ValidationRunner {
  import opened Wrappers
  import opened JsValue
  import opened JsString
  import opened PosixPath
  import opened PlaceholderSyntax
  import opened ConfigTypes
  import opened Environment
  import opened SpalidateRunner

  const ValidationCommand := "spalidate"

  const ValidationArgs: seq<string> := [
    "--project", Token("projectId"),
    "--instance", Token("instanceId"),
    "--database", Token("databaseName"),
    Token("expectedFile")]

  const DefaultTimeoutMs := 60000

  const BlankCommandMessage := "spalidate command cannot be empty"

  // ---------------------------------------------------------------------------
  // Arguments

  /** The placeholder values; an absent schema file becomes the empty string. */
  function ValidationPlaceholders(config: ResolvedConfig, expectedFile: string): (m: map<string, string>)
    ensures m.Keys == {"schemaFile", "expectedFile", "projectId", "instanceId", "databaseName", "configDir", "expectedDir"}
    ensures m["schemaFile"] == config.schemaFile.GetOr("")
    ensures m["expectedFile"] == expectedFile && m["expectedDir"] == Dirname(expectedFile)
    ensures m["projectId"] == config.database.projectId
    ensures m["instanceId"] == config.database.instanceId
    ensures m["databaseName"] == config.database.database
    ensures m["configDir"] == config.configDir
  {
    map[
      "schemaFile" := config.schemaFile.GetOr(""),
      "expectedFile" := expectedFile,
      "projectId" := config.database.projectId,
      "instanceId" := config.database.instanceId,
      "databaseName" := config.database.database,
      "configDir" := config.configDir,
      "expectedDir" := Dirname(expectedFile)]
  }

  /** What the replacer callback returns for one scan step: `placeholders[key] ?? `{${key}}``,
      a token rebuilt from its key; any other character is copied. */
  function InlinePiece(t: string, placeholders: map<string, string>): string
    requires t != []
  {
    var n := TokenLength(t);
    if n > 0 then
      var key := t[1..n - 1];
      if key in placeholders then placeholders[key] else Token(key)
    else [t[0]]
  }

  /** `arg.replace(/\{(\w+)\}/g, …)` with the inline replacer. */
  function SubstituteInline(template: string, placeholders: map<string, string>): string
    decreases |template|
  {
    if template == [] then []
    else InlinePiece(template, placeholders) + SubstituteInline(template[Advance(template)..], placeholders)
  }

  /** Rebuilding an unknown token from its key gives back the token as matched, so
      the inline replacer substitutes exactly as `replacePlaceholders` does. */
  lemma {:induction false} InlineAgreesWithRunner(template: string, placeholders: map<string, string>)
    ensures SubstituteInline(template, placeholders) == ReplacePlaceholders(template, placeholders)
    decreases |template|
  {
    if template != [] {
      var n := TokenLength(template);
      if n > 0 {
        assert template[..n] == Token(template[1..n - 1]);
      }
      assert InlinePiece(template, placeholders) == Piece(template, placeholders);
      InlineAgreesWithRunner(template[Advance(template)..], placeholders);
    }
  }

  /** `argsTemplate.map(arg => arg.replace(…))` */
  function InlineArgs(templates: seq<string>, placeholders: map<string, string>): (r: seq<string>)
    ensures |r| == |templates|
    decreases |templates|
  {
    if templates == [] then []
    else [SubstituteInline(templates[0], placeholders)] + InlineArgs(templates[1..], placeholders)
  }

  /** Both runners turn a template list into the same arguments for the same values. */
  lemma {:induction false} InlineArgsAgree(templates: seq<string>, placeholders: map<string, string>)
    ensures InlineArgs(templates, placeholders) == InstantiateArgs(templates, placeholders)
    decreases |templates|
  {
    if templates != [] {
      InlineAgreesWithRunner(templates[0], placeholders);
      InlineArgsAgree(templates[1..], placeholders);
    }
  }

  // ---------------------------------------------------------------------------
  // What is spawned

  /** `config.spalidate?.command?.trim() === ''` */
  predicate HasBlankCommand(config: ResolvedConfig) {
    config.spalidate.Some? && config.spalidate.value.command.Some?
    && Trim(config.spalidate.value.command.value) == ""
  }

  /** The timer's delay: `config.spalidate?.timeout ?? DEFAULT_TIMEOUT_MS`. */
  function TimeoutOf(config: ResolvedConfig): int {
    config.spalidate.GetOr(NoOverrides).timeout.GetOr(DefaultTimeoutMs)
  }

  /** Everything this runner hands to `spawn`: the configured spawn options are spread
      last and unfiltered. */
  function ValidationSpawn(config: ResolvedConfig, expectedFile: string, host: Host): SpawnRequest {
    var sp := config.spalidate.GetOr(NoOverrides);
    var command := sp.command.GetOr(ValidationCommand);
    var template := sp.args.GetOr(ValidationArgs);
    var cwd := sp.workingDirectory.GetOr(config.configDir);
    var args := InlineArgs(template, ValidationPlaceholders(config, expectedFile));
    var env := MergeEnv(host.env, sp.env.GetOr(map[]));
    SpawnRequest(command, args, BaseSpawnOptions(cwd, env, host.isWindows) + sp.spawnOptions.GetOr(map[]))
  }

  /** Every configured spawn option reaches `spawn` as configured, `cwd` and `env`
      included; without any, the options are the computed ones. */
  lemma SpawnOptionsOverrideAll(config: ResolvedConfig, expectedFile: string, host: Host)
    ensures var sp := config.spalidate.GetOr(NoOverrides);
      var options := ValidationSpawn(config, expectedFile, host).options;
      && options.Keys == {"cwd", "env", "stdio", "shell"} + sp.spawnOptions.GetOr(map[]).Keys
      && (forall k :: k in sp.spawnOptions.GetOr(map[]) ==> options[k] == sp.spawnOptions.value[k])
      && ("cwd" !in sp.spawnOptions.GetOr(map[]) ==> options["cwd"] == Str(sp.workingDirectory.GetOr(config.configDir)))
      && ("env" !in sp.spawnOptions.GetOr(map[]) ==> options["env"] == StringsObject(MergeEnv(host.env, sp.env.GetOr(map[]))))
  {
  }

  /** The two runners part ways on a configured `cwd`: `src/spalidate-runner.ts` keeps
      its own, `src/validation.ts` spawns in the configured one. */
  lemma RunnersDisagreeOnConfiguredCwd(config: ResolvedConfig, expectedFile: string, host: Host, cwd: Value)
    requires config.spalidate.Some? && config.spalidate.value.spawnOptions.Some?
    requires config.spalidate.value.spawnOptions.value == map["cwd" := cwd]
    requires cwd != Str(config.spalidate.value.workingDirectory.GetOr(config.configDir))
    ensures ValidationSpawn(config, expectedFile, host).options["cwd"] == cwd
    ensures PlanSpawn(config, expectedFile, host).options["cwd"] != cwd
  {
    ComputedCwdAndEnvWin(config, expectedFile, host);
  }

  /** With no `spalidate` block this runner spawns `spalidate --project … --instance …
      --database … <expectedFile>` in the configuration directory with the ambient
      environment, under a 60-second timer. */
  lemma ValidationDefaults(config: ResolvedConfig, expectedFile: string, host: Host)
    requires config.spalidate.None?
    ensures var req := ValidationSpawn(config, expectedFile, host);
      && req.command == ValidationCommand
      && req.args == [
           "--project", config.database.projectId,
           "--instance", config.database.instanceId,
           "--database", config.database.database,
           expectedFile]
      && req.options == BaseSpawnOptions(config.configDir, host.env, host.isWindows)
      && TimeoutOf(config) == DefaultTimeoutMs
  {
    var base := BaseSpawnOptions(config.configDir, host.env, host.isWindows);
    assert MergeEnv(host.env, map[]) == host.env;
    assert base + map[] == base;
    ValidationDefaultArgs(config, expectedFile);
  }

  /** The default template, filled: the three flags, each with its database field,
      then the expected-data file. */
  lemma ValidationDefaultArgs(config: ResolvedConfig, expectedFile: string)
    ensures InlineArgs(ValidationArgs, ValidationPlaceholders(config, expectedFile)) == [
              "--project", config.database.projectId,
              "--instance", config.database.instanceId,
              "--database", config.database.database,
              expectedFile]
  {
    var m := ValidationPlaceholders(config, expectedFile);
    FilledDefault(m);
  }

  lemma FilledDefault(m: map<string, string>)
    requires "projectId" in m && "instanceId" in m && "databaseName" in m && "expectedFile" in m
    ensures InlineArgs(ValidationArgs, m) == [
              "--project", m["projectId"],
              "--instance", m["instanceId"],
              "--database", m["databaseName"],
              m["expectedFile"]]
  {
    InlineArgsAgree(ValidationArgs, m);
    ValidationKeysAreWords();
    ValidationFlagsPlain();
    ShortTemplateFilled("--project", "--instance", "--database",
                        "projectId", "instanceId", "databaseName", "expectedFile", m);
  }

  lemma ValidationKeysAreWords()
    ensures IsWord("projectId") && IsWord("instanceId") && IsWord("databaseName") && IsWord("expectedFile")
  {
  }

  lemma ValidationFlagsPlain()
    ensures '{' !in "--project" && '{' !in "--instance" && '{' !in "--database"
  {
  }

  /** A template laid out as the default one: three flags, each followed by a lone
      token, then a last token; the flags pass as written and each token becomes its value. */
  lemma ShortTemplateFilled(f0: string, f1: string, f2: string,
                            k0: string, k1: string, k2: string, k3: string, m: map<string, string>)
    requires '{' !in f0 && '{' !in f1 && '{' !in f2
    requires IsWord(k0) && IsWord(k1) && IsWord(k2) && IsWord(k3)
    requires k0 in m && k1 in m && k2 in m && k3 in m
    ensures InstantiateArgs([f0, Token(k0), f1, Token(k1), f2, Token(k2), Token(k3)], m)
              == [f0, m[k0], f1, m[k1], f2, m[k2], m[k3]]
  {
    var t := [f0, Token(k0), f1, Token(k1), f2, Token(k2), Token(k3)];
    KeptAt(t, m, 0);
    FilledAt(t, m, 1, k0);
    KeptAt(t, m, 2);
    FilledAt(t, m, 3, k1);
    KeptAt(t, m, 4);
    FilledAt(t, m, 5, k2);
    FilledAt(t, m, 6, k3);
  }

  // ---------------------------------------------------------------------------
  // Settlement

  /** What can settle the spawn promise: the timer, or what `spawn` leads to first
      (a throw from `spawn` itself comes before the timer is armed). */
  datatype Happening = TimerFired | ChildEvent(event: ProcessEvent)

  const LaunchFailedPrefix := "Failed to launch spalidate: "
  const NonZeroExitPrefix := "spalidate exited with non-zero code "

  function TimeoutMessage(timeout: int): string {
    "spalidate timed out after " + IntToString(timeout) + "ms"
  }

  /** `signal ? ` (signal: ${signal})` : ''` */
  function SignalInfo(signal: Option<string>): string {
    if signal.Some? && signal.value != "" then " (signal: " + signal.value + ")" else ""
  }

  /** What one happening settles the promise with: success only for exit code 0; a
      throw from `spawn` rejects with the thrown error, anything else with a
      `SpalidateExecution` error. */
  function HappeningOutcome(timeout: int, h: Happening): (r: Outcome<Error>)
    ensures r.Pass? <==> h.ChildEvent? && h.event.Exited? && h.event.code == Some(0)
    ensures h.ChildEvent? && h.event.SpawnThrew? ==> r == Fail(SpawnError(h.event.message))
    ensures r.Fail? && !(h.ChildEvent? && h.event.SpawnThrew?) ==> r.error.SpalidateExecution?
  {
    match h
    case TimerFired => Fail(SpalidateExecution(TimeoutMessage(timeout)))
    case ChildEvent(SpawnThrew(message)) => Fail(SpawnError(message))
    case ChildEvent(LaunchFailed(message)) => Fail(SpalidateExecution(LaunchFailedPrefix + message))
    case ChildEvent(Exited(code, signal)) =>
      if code == Some(0) then Pass
      else Fail(SpalidateExecution(NonZeroExitPrefix + CodeText(code) + SignalInfo(signal)))
  }

  /** The spawn promise with its timer: a promise settles once, the timer is armed
      once `spawn` has returned, and it is cleared by the first child event. */
  class SpawnPromise {
    const timeout: int
    var settled: Option<Outcome<Error>>
    var timerArmed: bool
    var killed: bool

    constructor (timeout: int)
      ensures this.timeout == timeout && settled == None && !timerArmed && !killed
    {
      this.timeout := timeout;
      settled := None;
      timerArmed := false;
      killed := false;
    }

    /** The executor's synchronous part: `spawn`, then `setTimeout`. When `spawn`
        throws with `thrown`, the promise rejects with that error and no timer is armed. */
    method Launch(thrown: Option<string>)
      requires settled.None? && !timerArmed
      modifies this
      ensures thrown.Some? ==> settled == Some(Fail(SpawnError(thrown.value))) && !timerArmed
      ensures thrown.None? ==> settled == None && timerArmed
      ensures killed == old(killed)
    {
      if thrown.Some? {
        Settle(Fail(SpawnError(thrown.value)));
      } else {
        timerArmed := true;
      }
    }

    /** `resolve()` or `reject(error)`: only the first call has an effect. */
    method Settle(o: Outcome<Error>)
      modifies this
      ensures settled == if old(settled).None? then Some(o) else old(settled)
      ensures timerArmed == old(timerArmed) && killed == old(killed)
    {
      if settled.None? {
        settled := Some(o);
      }
    }

    /** The timer callback, which runs only while the timer is armed: kill the child
        with `SIGKILL` and reject. */
    method OnTimer()
      modifies this
      ensures !timerArmed
      ensures killed == (old(killed) || old(timerArmed))
      ensures settled == if old(timerArmed) && old(settled).None?
                         then Some(HappeningOutcome(timeout, TimerFired)) else old(settled)
    {
      if timerArmed {
        timerArmed := false;
        killed := true;
        Settle(HappeningOutcome(timeout, TimerFired));
      }
    }

    /** The `error` and `exit` handlers: clear the timer, then settle. */
    method OnChildEvent(event: ProcessEvent)
      modifies this
      ensures !timerArmed && killed == old(killed)
      ensures settled == if old(settled).None?
                         then Some(HappeningOutcome(timeout, ChildEvent(event))) else old(settled)
    {
      timerArmed := false;
      Settle(HappeningOutcome(timeout, ChildEvent(event)));
    }
  }

  /** The promise's fate after a sequence of happenings: the first one settles it. */
  function FirstSettlement(timeout: int, happenings: seq<Happening>): Option<Outcome<Error>> {
    if happenings == [] then None else Some(HappeningOutcome(timeout, happenings[0]))
  }

  /** Delivers the happenings in order to a fresh promise: whatever comes after the first
      one, the timer firing late included, changes nothing. */
  method Race(timeout: int, happenings: seq<Happening>) returns (settled: Option<Outcome<Error>>)
    ensures settled == FirstSettlement(timeout, happenings)
  {
    var promise := new SpawnPromise(timeout);
    if happenings != [] && happenings[0].ChildEvent? && happenings[0].event.SpawnThrew? {
      promise.Launch(Some(happenings[0].event.message));
      return promise.settled;
    }
    promise.Launch(None);
    var i := 0;
    while i < |happenings|
      invariant 0 <= i <= |happenings|
      invariant promise.timeout == timeout
      invariant promise.timerArmed <==> i == 0
      invariant promise.settled == FirstSettlement(timeout, happenings[..i])
    {
      assert happenings[..i + 1][0] == happenings[0];
      match happenings[i] {
        case TimerFired => promise.OnTimer();
        case ChildEvent(event) => promise.OnChildEvent(event);
      }
      i := i + 1;
    }
    assert happenings[..i] == happenings;
    return promise.settled;
  }

  /** `runSpalidate({ config, expectedFile })`; `first` stands for whichever of the
      timer and the child's events happens first for the request and delay given. */
  function RunValidation(config: ResolvedConfig, expectedFile: string, host: Host,
                         first: (SpawnRequest, int) -> Happening): Outcome<Error> {
    if HasBlankCommand(config) then Fail(SpalidateExecution(BlankCommandMessage))
    else HappeningOutcome(TimeoutOf(config), first(ValidationSpawn(config, expectedFile, host), TimeoutOf(config)))
  }

  /** A present but blank command fails before anything is spawned; an absent one is
      replaced by the default. */
  lemma BlankCommandRefused(config: ResolvedConfig, expectedFile: string, host: Host,
                            first: (SpawnRequest, int) -> Happening)
    ensures HasBlankCommand(config) <==>
              config.spalidate.Some? && config.spalidate.value.command.Some?
              && IsBlank(config.spalidate.value.command.value)
    ensures HasBlankCommand(config) ==>
              RunValidation(config, expectedFile, host, first) == Fail(SpalidateExecution(BlankCommandMessage))
    ensures config.spalidate.GetOr(NoOverrides).command.None? ==>
              ValidationSpawn(config, expectedFile, host).command == ValidationCommand
  {
  }

  /** The run succeeds exactly when the command is not blank and the child exits with
      code 0 before the timer fires; every failure is a `SpalidateExecution` error
      except a throw from `spawn`, which rejects with the thrown error. */
  lemma ValidationPassesIffExitZero(config: ResolvedConfig, expectedFile: string, host: Host,
                                    first: (SpawnRequest, int) -> Happening)
    ensures var h := first(ValidationSpawn(config, expectedFile, host), TimeoutOf(config));
      var r := RunValidation(config, expectedFile, host, first);
      && (r.Pass? <==> !HasBlankCommand(config) && h.ChildEvent? && h.event.Exited? && h.event.code == Some(0))
      && (r.Fail? ==> (r.error.SpalidateExecution? <==> HasBlankCommand(config) || !(h.ChildEvent? && h.event.SpawnThrew?)))
      && (!HasBlankCommand(config) && h.ChildEvent? && h.event.SpawnThrew? ==> r == Fail(SpawnError(h.event.message)))
  {
  }

  /** A signal is reported only when it is a non-empty name, and then in parentheses. */
  lemma SignalReported(signal: Option<string>)
    ensures SignalInfo(signal) != "" <==> signal.Some? && signal.value != ""
    ensures SignalInfo(signal) != "" ==> SignalInfo(signal)[|SignalInfo(signal)| - 1] == ')'
  {
  }

  /** A launch error is reported with the underlying message, which can be read back. */
  lemma LaunchMessageKept(timeout: int, a: string, b: string)
    requires HappeningOutcome(timeout, ChildEvent(LaunchFailed(a))) == HappeningOutcome(timeout, ChildEvent(LaunchFailed(b)))
    ensures a == b
  {
    var p := LaunchFailedPrefix;
    assert a == (p + a)[|p|..];
    assert b == (p + b)[|p|..];
  }

  /** The timeout message names the delay. */
  lemma TimeoutMessageNamesDelay(a: int, b: int)
    requires TimeoutMessage(a) == TimeoutMessage(b)
    ensures a == b
  {
    CancelAround("spalidate timed out after ", IntToString(a), IntToString(b), "ms");
    IntToStringInjective(a, b);
  }
}
