/** The runner of `src/spalidate-runner.ts`, the one both facades call: it fills the
    placeholders of the argument template, builds the spawn options and maps the
    child process's first event to success or a `SpalidateExecution` error. */
module SpalidateRunner {
  import opened Wrappers
  import opened JsValue
  import opened JsString
  import opened PosixPath
  import opened PlaceholderSyntax
  import opened ConfigTypes
  import opened Environment

  const DefaultCommand := "npx"

  const DefaultArgs: seq<string> := [
    "spalidate", "validate",
    "--schema", Token("schemaFile"),
    "--project", Token("projectId"),
    "--instance", Token("instanceId"),
    "--database", Token("databaseName"),
    "--expected", Token("expectedFile")]

  /** What `spawn(command, args, options)` is handed. */
  datatype SpawnRequest = SpawnRequest(command: string, args: seq<string>, options: map<string, Value>)

  /** What `spawn` leads to first: the child's `exit` with its code (`null` after a
      signal) and signal, its `error` when it could not be started, or a synchronous
      throw from `spawn` itself (an empty command or an option of the wrong type), which
      rejects the promise with Node's own error before any handler is attached. */
  datatype ProcessEvent =
    | Exited(code: Option<int>, signal: Option<string>)
    | LaunchFailed(message: string)
    | SpawnThrew(message: string)

  // ---------------------------------------------------------------------------
  // Placeholder substitution

  /** How far one step of the scan advances: past the token at the start, or one character. */
  function Advance(t: string): (n: nat)
    requires t != []
    ensures 1 <= n <= |t|
  {
    if TokenLength(t) > 0 then TokenLength(t) else 1
  }

  /** What one step of the scan writes: the value of the token at the start, the token
      as matched when its key has no value, or the first character. */
  function Piece(t: string, placeholders: map<string, string>): string
    requires t != []
  {
    var n := TokenLength(t);
    if n > 0 then
      var key := t[1..n - 1];
      if key in placeholders then placeholders[key] else t[..n]
    else [t[0]]
  }

  /** `template.replace(/\{(\w+)\}/g, …)`: each token whose key has a value is replaced
      by it, any other token is kept as matched, and replaced text is never scanned again. */
  function ReplacePlaceholders(template: string, placeholders: map<string, string>): string
    decreases |template|
  {
    if template == [] then []
    else Piece(template, placeholders) + ReplacePlaceholders(template[Advance(template)..], placeholders)
  }

  /** The keys of the tokens the scan meets, in order. */
  function TokenKeys(template: string): seq<string>
    decreases |template|
  {
    if template == [] then []
    else
      var n := TokenLength(template);
      (if n > 0 then [template[1..n - 1]] else []) + TokenKeys(template[Advance(template)..])
  }

  /** A template none of whose token keys has a value comes back unchanged; in
      particular a template without tokens does. */
  lemma {:induction false} UnknownKeysKept(template: string, placeholders: map<string, string>)
    requires forall k :: k in TokenKeys(template) ==> k !in placeholders
    ensures ReplacePlaceholders(template, placeholders) == template
    decreases |template|
  {
    if template != [] {
      var n := Advance(template);
      var keys := TokenKeys(template);
      if TokenLength(template) > 0 {
        assert keys[0] == template[1..n - 1];
      }
      assert Piece(template, placeholders) == template[..n];
      assert forall k :: k in TokenKeys(template[n..]) ==> k in keys;
      UnknownKeysKept(template[n..], placeholders);
      SplitAt(template, n);
    }
  }

  /** A template without an opening brace comes back unchanged, whatever the values. */
  lemma {:induction false} NoBraceUnchanged(template: string, placeholders: map<string, string>)
    requires '{' !in template
    ensures ReplacePlaceholders(template, placeholders) == template
    decreases |template|
  {
    if template != [] {
      NoBraceUnchanged(template[1..], placeholders);
      assert [template[0]] + template[1..] == template;
    }
  }

  /** A lone token becomes its value, or stays as written when its key has none. */
  lemma ReplaceSingleToken(key: string, placeholders: map<string, string>)
    requires IsWord(key)
    ensures ReplacePlaceholders(Token(key), placeholders) ==
              if key in placeholders then placeholders[key] else Token(key)
  {
    var t := Token(key);
    TokenOfWord(key, "");
    assert t + "" == t;
    assert t[1..|t| - 1] == key;
    assert t[|t|..] == [];
  }

  /** Substitution distributes over concatenation when the left part does not end in
      an unfinished token. */
  lemma {:induction false} ReplaceConcat(x: string, y: string, placeholders: map<string, string>)
    requires !OpenTail(x)
    ensures ReplacePlaceholders(x + y, placeholders) ==
              ReplacePlaceholders(x, placeholders) + ReplacePlaceholders(y, placeholders)
    decreases |x|
  {
    if x == [] {
      assert x + y == y;
    } else {
      StepInPrefix(x, y, placeholders);
      var n := Advance(x);
      var piece := Piece(x, placeholders);
      assert (x + y)[n..] == x[n..] + y;
      SuffixNoOpenTail(x, n);
      ReplaceConcat(x[n..], y, placeholders);
      calc {
        ReplacePlaceholders(x + y, placeholders);
        piece + ReplacePlaceholders(x[n..] + y, placeholders);
        piece + (ReplacePlaceholders(x[n..], placeholders) + ReplacePlaceholders(y, placeholders));
        (piece + ReplacePlaceholders(x[n..], placeholders)) + ReplacePlaceholders(y, placeholders);
        ReplacePlaceholders(x, placeholders) + ReplacePlaceholders(y, placeholders);
      }
    }
  }

  /** One step of the scan over `x + y` is the step over `x`. */
  lemma StepInPrefix(x: string, y: string, placeholders: map<string, string>)
    requires x != [] && !OpenTail(x)
    ensures Advance(x + y) == Advance(x)
    ensures Piece(x + y, placeholders) == Piece(x, placeholders)
  {
    TokenInPrefix(x, y);
    var n := TokenLength(x);
    if n > 0 {
      assert (x + y)[1..n - 1] == x[1..n - 1] && (x + y)[..n] == x[..n];
    }
  }

  /** A value is inserted once and never scanned again: even a value that itself looks
      like a token stays as it is. */
  lemma ValueNotRescanned(before: string, key: string, after: string, placeholders: map<string, string>)
    requires !OpenTail(before) && IsWord(key) && key in placeholders
    ensures ReplacePlaceholders(before + Token(key) + after, placeholders) ==
              ReplacePlaceholders(before, placeholders) + placeholders[key] + ReplacePlaceholders(after, placeholders)
  {
    var token := Token(key);
    assert before + token + after == before + (token + after);
    ReplaceConcat(before, token + after, placeholders);
    TokenNoOpenTail(key);
    ReplaceConcat(token, after, placeholders);
    ReplaceSingleToken(key, placeholders);
  }

  /** `argsTemplate.map(value => replacePlaceholders(value, placeholderValues))` */
  function InstantiateArgs(templates: seq<string>, placeholders: map<string, string>): (r: seq<string>)
    ensures |r| == |templates|
    decreases |templates|
  {
    if templates == [] then []
    else [ReplacePlaceholders(templates[0], placeholders)] + InstantiateArgs(templates[1..], placeholders)
  }

  /** Each argument is its own template, filled. */
  lemma {:induction false} InstantiateArgsAt(templates: seq<string>, placeholders: map<string, string>, i: nat)
    requires i < |templates|
    ensures InstantiateArgs(templates, placeholders)[i] == ReplacePlaceholders(templates[i], placeholders)
    decreases i
  {
    if i > 0 {
      InstantiateArgsAt(templates[1..], placeholders, i - 1);
    }
  }

  /** The values the placeholders take; an absent schema file leaves `{schemaFile}` without a value. */
  function BuildPlaceholderMap(config: ResolvedConfig, expectedFile: string): map<string, string> {
    var common := map[
      "expectedFile" := expectedFile,
      "projectId" := config.database.projectId,
      "instanceId" := config.database.instanceId,
      "databaseName" := config.database.database,
      "configDir" := config.configDir,
      "expectedDir" := Dirname(expectedFile)];
    if config.schemaFile.Some? then common["schemaFile" := config.schemaFile.value] else common
  }

  // ---------------------------------------------------------------------------
  // Spawn options

  /** `{ ...ambient, ...overrides }` for string-valued records. */
  function MergeEnv(ambient: map<string, string>, overrides: map<string, string>): (r: map<string, string>)
    ensures r.Keys == ambient.Keys + overrides.Keys
    ensures forall k :: k in overrides ==> r[k] == overrides[k]
    ensures forall k :: k in ambient && k !in overrides ==> r[k] == ambient[k]
  {
    ambient + overrides
  }

  /** The options the runner computes itself, before the configured ones are spread over them. */
  function BaseSpawnOptions(cwd: string, env: map<string, string>, isWindows: bool): map<string, Value> {
    map["cwd" := Str(cwd), "env" := StringsObject(env), "stdio" := Str("inherit"), "shell" := Bool(isWindows)]
  }

  /** The configured spawn options without `cwd` and `env`, which the runner owns. */
  function SanitizedSpawnOptions(options: Option<map<string, Value>>): (r: Option<map<string, Value>>)
    ensures r.Some? <==> options.Some?
    ensures r.Some? ==> r.value.Keys == options.value.Keys - {"cwd", "env"}
    ensures r.Some? ==> forall k :: k in r.value ==> r.value[k] == options.value[k]
  {
    if options.None? then None else Some(options.value - {"cwd", "env"})
  }

  /** `sanitizeSpawnOptions`: copy the options, then delete `cwd`, then `env`. */
  method SanitizeSpawnOptions(options: Option<map<string, Value>>) returns (r: Option<map<string, Value>>)
    ensures r == SanitizedSpawnOptions(options)
  {
    if options.None? {
      return None;
    }
    var sanitized := options.value;
    sanitized := sanitized - {"cwd"};
    sanitized := sanitized - {"env"};
    assert sanitized == options.value - {"cwd", "env"};
    return Some(sanitized);
  }

  /** Everything `runSpalidate` hands to `spawn`. */
  function PlanSpawn(config: ResolvedConfig, expectedFile: string, host: Host): SpawnRequest {
    var sp := config.spalidate.GetOr(NoOverrides);
    var command := sp.command.GetOr(DefaultCommand);
    var template := sp.args.GetOr(DefaultArgs);
    var cwd := sp.workingDirectory.GetOr(config.configDir);
    var args := InstantiateArgs(template, BuildPlaceholderMap(config, expectedFile));
    var env := MergeEnv(host.env, sp.env.GetOr(map[]));
    var overrides := SanitizedSpawnOptions(sp.spawnOptions).GetOr(map[]);
    SpawnRequest(command, args, BaseSpawnOptions(cwd, env, host.isWindows) + overrides)
  }

  /** The working directory and the environment are always the runner's own: configured
      spawn options cannot replace them, while any other option they name wins. */
  lemma ComputedCwdAndEnvWin(config: ResolvedConfig, expectedFile: string, host: Host)
    ensures var sp := config.spalidate.GetOr(NoOverrides);
      var options := PlanSpawn(config, expectedFile, host).options;
      && options["cwd"] == Str(sp.workingDirectory.GetOr(config.configDir))
      && options["env"] == StringsObject(MergeEnv(host.env, sp.env.GetOr(map[])))
      && (sp.spawnOptions.Some? ==>
            forall k :: k in sp.spawnOptions.value && k != "cwd" && k != "env" ==>
              options[k] == sp.spawnOptions.value[k])
      && (sp.spawnOptions.None? ==> options.Keys == {"cwd", "env", "stdio", "shell"})
  {
  }

  /** The keys of the default template's tokens, in order. */
  const DefaultKeys: seq<string> := ["schemaFile", "projectId", "instanceId", "databaseName", "expectedFile"]

  /** A template shaped like the default one: twelve arguments, the first two and
      every even one without `{`, and at position `2 * k + 3` the lone token of `keys[k]`. */
  predicate TemplateShape(templates: seq<string>, keys: seq<string>) {
    && |templates| == 12 && |keys| == 5
    && (forall k :: 0 <= k < 5 ==> IsWord(keys[k]) && templates[2 * k + 3] == Token(keys[k]))
    && forall i :: 0 <= i < 12 && (i % 2 == 0 || i == 1) ==> '{' !in templates[i]
  }

  /** The default template has that shape, with the keys `DefaultKeys`. */
  lemma DefaultTemplateShape()
    ensures TemplateShape(DefaultArgs, DefaultKeys)
  {
    DefaultKeysAreWords();
    DefaultTokensInPlace();
    DefaultWordsWithoutBrace();
  }

  lemma DefaultKeysAreWords()
    ensures forall k :: 0 <= k < 5 ==> IsWord(DefaultKeys[k])
  {
  }

  lemma DefaultTokensInPlace()
    ensures forall k :: 0 <= k < 5 ==> DefaultArgs[2 * k + 3] == Token(DefaultKeys[k])
  {
  }

  lemma DefaultWordsWithoutBrace()
    ensures forall i :: 0 <= i < 12 && (i % 2 == 0 || i == 1) ==> '{' !in DefaultArgs[i]
  {
  }

  /** The argument at the position of the `k`-th token is that token's value, or the
      token itself when it has none. */
  predicate Filled(args: seq<string>, templates: seq<string>, keys: seq<string>, m: map<string, string>, k: nat)
    requires |args| == |templates| == 12 && k < |keys| && k < 5
  {
    args[2 * k + 3] == if keys[k] in m then m[keys[k]] else templates[2 * k + 3]
  }

  /** Filling a template of that shape: the words without `{` are passed as written and
      each token becomes its value, or stays as written when it has none. */
  lemma TemplateShapeFilled(templates: seq<string>, keys: seq<string>, m: map<string, string>)
    requires TemplateShape(templates, keys)
    ensures var args := InstantiateArgs(templates, m);
      && |args| == 12
      && (forall k :: 0 <= k < 5 ==> Filled(args, templates, keys, m, k))
      && forall i :: 0 <= i < 12 && (i % 2 == 0 || i == 1) ==> args[i] == templates[i]
  {
    forall k | 0 <= k < 5
      ensures Filled(InstantiateArgs(templates, m), templates, keys, m, k)
    {
      FilledAt(templates, m, 2 * k + 3, keys[k]);
    }
    forall i | 0 <= i < 12 && (i % 2 == 0 || i == 1) ensures InstantiateArgs(templates, m)[i] == templates[i] {
      KeptAt(templates, m, i);
    }
  }

  /** `buildPlaceholderMap`: the seven keys with their values, `expectedDir` being the
      directory of the expected file; an absent schema file leaves `schemaFile` without a value. */
  lemma PlaceholderValues(config: ResolvedConfig, expectedFile: string)
    ensures var m := BuildPlaceholderMap(config, expectedFile);
      && "projectId" in m && m["projectId"] == config.database.projectId
      && "instanceId" in m && m["instanceId"] == config.database.instanceId
      && "databaseName" in m && m["databaseName"] == config.database.database
      && "expectedFile" in m && m["expectedFile"] == expectedFile
      && ("schemaFile" in m <==> config.schemaFile.Some?)
      && (config.schemaFile.Some? ==> m["schemaFile"] == config.schemaFile.value)
      && "configDir" in m && m["configDir"] == config.configDir
      && "expectedDir" in m && m["expectedDir"] == Dirname(expectedFile)
      && m.Keys == {"expectedFile", "projectId", "instanceId", "databaseName", "configDir", "expectedDir"}
                   + (if config.schemaFile.Some? then {"schemaFile"} else {})
  {
  }

  /** The default template, filled from a configuration: the schema file is passed
      only when one is configured, otherwise `{schemaFile}` stays as written. */
  lemma DefaultArgsFilled(config: ResolvedConfig, expectedFile: string)
    ensures var args := InstantiateArgs(DefaultArgs, BuildPlaceholderMap(config, expectedFile));
      && |args| == 12
      && args[3] == config.schemaFile.GetOr(Token("schemaFile"))
      && args[5] == config.database.projectId
      && args[7] == config.database.instanceId
      && args[9] == config.database.database
      && args[11] == expectedFile
      && forall i :: 0 <= i < 12 && (i % 2 == 0 || i == 1) ==> args[i] == DefaultArgs[i]
  {
    var m := BuildPlaceholderMap(config, expectedFile);
    var args := InstantiateArgs(DefaultArgs, m);
    DefaultTemplateShape();
    PlaceholderValues(config, expectedFile);
    TemplateShapeFilled(DefaultArgs, DefaultKeys, m);
    assert Filled(args, DefaultArgs, DefaultKeys, m, 0);
    assert Filled(args, DefaultArgs, DefaultKeys, m, 1);
    assert Filled(args, DefaultArgs, DefaultKeys, m, 2);
    assert Filled(args, DefaultArgs, DefaultKeys, m, 3);
    assert Filled(args, DefaultArgs, DefaultKeys, m, 4);
  }

  /** An argument without `{` is passed as written. */
  lemma KeptAt(templates: seq<string>, placeholders: map<string, string>, i: nat)
    requires i < |templates| && '{' !in templates[i]
    ensures InstantiateArgs(templates, placeholders)[i] == templates[i]
  {
    InstantiateArgsAt(templates, placeholders, i);
    NoBraceUnchanged(templates[i], placeholders);
  }

  /** An argument that is a lone token is passed as its value, or as written when it has none. */
  lemma FilledAt(templates: seq<string>, placeholders: map<string, string>, i: nat, key: string)
    requires i < |templates| && IsWord(key) && templates[i] == Token(key)
    ensures InstantiateArgs(templates, placeholders)[i] ==
              if key in placeholders then placeholders[key] else templates[i]
  {
    InstantiateArgsAt(templates, placeholders, i);
    ReplaceSingleToken(key, placeholders);
  }

  /** With no `spalidate` block the runner spawns `npx spalidate validate …` in the
      configuration directory with the ambient environment. */
  lemma DefaultInvocation(config: ResolvedConfig, expectedFile: string, host: Host)
    requires config.spalidate.None?
    ensures var req := PlanSpawn(config, expectedFile, host);
      && req.command == DefaultCommand
      && req.args == InstantiateArgs(DefaultArgs, BuildPlaceholderMap(config, expectedFile))
      && req.options == BaseSpawnOptions(config.configDir, host.env, host.isWindows)
  {
    var base := BaseSpawnOptions(config.configDir, host.env, host.isWindows);
    assert MergeEnv(host.env, map[]) == host.env;
    assert base + map[] == base;
  }

  // ---------------------------------------------------------------------------
  // Settlement

  /** `${code ?? 'unknown'}` */
  function CodeText(code: Option<int>): string {
    if code.Some? then IntToString(code.value) else "unknown"
  }

  const LaunchFailurePrefix := "spalidate の起動に失敗しました: "
  const ExitFailurePrefix := "spalidate が非ゼロ終了コード ("
  const ExitFailureSuffix := ") を返しました"

  /** The promise settles on the first event: success only for exit code 0; a throw
      from `spawn` rejects with the thrown error, anything else with a
      `SpalidateExecution` error. */
  function ExitOutcome(event: ProcessEvent): (r: Outcome<Error>)
    ensures r.Pass? <==> event.Exited? && event.code == Some(0)
    ensures event.SpawnThrew? ==> r == Fail(SpawnError(event.message))
    ensures r.Fail? && !event.SpawnThrew? ==> r.error.SpalidateExecution?
  {
    match event
    case SpawnThrew(message) => Fail(SpawnError(message))
    case LaunchFailed(message) => Fail(SpalidateExecution(LaunchFailurePrefix + message))
    case Exited(code, _) =>
      if code == Some(0) then Pass
      else Fail(SpalidateExecution(ExitFailurePrefix + CodeText(code) + ExitFailureSuffix))
  }

  /** `runSpalidate({ config, expectedFile })`; `process` stands for the child process,
      which settles on some first event for the request it is given. */
  function RunSpalidate(config: ResolvedConfig, expectedFile: string, host: Host,
                        process: SpawnRequest -> ProcessEvent): Outcome<Error> {
    ExitOutcome(process(PlanSpawn(config, expectedFile, host)))
  }

  /** The run succeeds exactly when the child exits with code 0; every failure is a
      `SpalidateExecution` error except a throw from `spawn`, which rejects with the
      thrown error. */
  lemma RunPassesIffExitZero(config: ResolvedConfig, expectedFile: string, host: Host,
                             process: SpawnRequest -> ProcessEvent)
    ensures var e := process(PlanSpawn(config, expectedFile, host));
      var r := RunSpalidate(config, expectedFile, host, process);
      && (r.Pass? <==> e.Exited? && e.code == Some(0))
      && (r.Fail? ==> (r.error.SpalidateExecution? <==> !e.SpawnThrew?))
      && (e.SpawnThrew? ==> r == Fail(SpawnError(e.message)))
  {
  }

  lemma {:induction false} CancelAround(p: string, x: string, y: string, s: string)
    requires p + x + s == p + y + s
    ensures x == y
  {
    assert |x| == |y|;
    assert x == (p + x + s)[|p|..|p| + |x|];
    assert y == (p + y + s)[|p|..|p| + |y|];
  }

  /** The failure message names the exit code: two non-zero codes reported alike are
      the same code, and a missing code is never reported like a numeric one. */
  lemma ExitMessageIdentifiesCode(a: Option<int>, b: Option<int>, sa: Option<string>, sb: Option<string>)
    requires a != Some(0) && b != Some(0)
    requires ExitOutcome(Exited(a, sa)) == ExitOutcome(Exited(b, sb))
    ensures a == b
  {
    CancelAround(ExitFailurePrefix, CodeText(a), CodeText(b), ExitFailureSuffix);
    if a.Some? && b.Some? {
      IntToStringInjective(a.value, b.value);
    } else if a.Some? {
      IntToStringSign(a.value);
    } else if b.Some? {
      IntToStringSign(b.value);
    }
  }
}
