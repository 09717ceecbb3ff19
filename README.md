# playwright-spanner-assert, modelled in Dafny

playwright-spanner-assert lets a Playwright test check the contents of a Cloud Spanner
database against an expected-data file. It reads a YAML configuration
(`playwright-spanner-assert.yaml`), picks the expected-data file, and runs the external
`spalidate` checker on it as a child process. This project models the logic that sits
in front of that I/O, including the two implementations the repository keeps of
several components, which differ in observable ways:

- **Configuration schema checker** (`src/validatebot.ts`, module `SchemaValidator`).
  JavaScript values are the `JsValue.Value` datatype. The checks push onto one shared
  `IssueList` object, so a single pass reports every violation. Each check is a method
  proved against an `...Outcome` function, and the lemmas state what the outcomes are.
- **Path guard** (`src/path-utils.ts`, module `PathGuard`). It is built on a
  segment-level model of Node's POSIX `path.resolve`, `path.relative` and
  `path.dirname` (module `PosixPath`). The quirk that a child named `..cache` is refused
  is proved.
- **The two runners**. `src/spalidate-runner.ts` is module `SpalidateRunner`;
  `src/validation.ts` is module `ValidationRunner`. Both cover `{word}` placeholder
  substitution (module `PlaceholderSyntax` defines the token), the defaults, the spawn
  options, and how the child's first event becomes an outcome. The `src/validation.ts` runner's
  spawn promise and timer are a class with one method per callback.
- **The two configuration loaders**. The closure loader of `src/config-loader.ts` is
  module `ClosureLoader`, and the class loader of `src/config.ts` is module
  `ClassLoader`. Each is a class whose fields are the cache, proved against a pure
  transition function. The steps both loaders share (configuration-file discovery,
  `assertField`, `resolvePath`, `resolveSpalidate`) are in module `ConfigResolution`.
- **The two facades**. The guarded `createClient` of `src/client.ts` is module
  `Client`, and the unguarded class `PlaywrightSpannerAssert` of
  `src/playwright-spanner-assert.ts` is module `Facade`. Each covers expected-file
  resolution (a loop, proved against a search function) and load → resolve → run.

The file system is a `Host` value (module `Environment`). It holds:

- the working directory;
- the environment variables;
- whether the platform is Windows;
- a map from resolved absolute paths to entries, each with a modification-time token
  and the YAML parse outcome of the file's contents.

The child process is a function from the spawn request to its first event. The
`src/validation.ts` runner uses a function to the first happening instead: either the timer or
a child event. Errors are the `ConfigTypes.Error` datatype, which carries the data each
error reports. The runners' failure messages are modelled as the exact strings the
source builds.

## Model

| member | source | states |
|---|---|---|
| SchemaValidator.IssueList.constructor | src/validatebot.ts:15 | A fresh issue array is empty. |
| SchemaValidator.IssueList.Push | src/validatebot.ts:57 | `issues.push(issue)` appends exactly that issue, keeping the earlier ones. |
| SchemaValidator.ReadString | src/validatebot.ts:132-149 | The method returns the `readString` value and appends exactly that check's issues to the shared list. |
| SchemaValidator.ValidateDatabase | src/validatebot.ts:55-68 | The method returns the database record and appends the database check's issues. |
| SchemaValidator.CheckArgs | src/validatebot.ts:86-95 | The `args` block returns the array or nothing, and appends its issue. |
| SchemaValidator.CheckEnv | src/validatebot.ts:97-106 | The `env` block returns the record or nothing, and appends its issue. |
| SchemaValidator.CheckSpawnOptions | src/validatebot.ts:108-117 | The `spawnOptions` block returns the object or nothing, and appends its issue. |
| SchemaValidator.ValidateSpalidate | src/validatebot.ts:70-130 | Filling the result field by field yields the block and appends the issues of all five fields. |
| SchemaValidator.ValidateConfigSchema | src/validatebot.ts:12-53 | The checker as written (one issue list threaded through every check) returns the outcome the lemmas below describe. |
| SchemaValidator.ReadStringOutcome | src/validatebot.ts:132-149 | The definition of `readString`: the value it returns and the issues it pushes. `SchemaValidator.ReadStringBehaviour` states its contract. |
| SchemaValidator.DatabaseOutcome | src/validatebot.ts:55-68 | The definition of `validateDatabase`: the record and the issues of its three field checks. `SchemaValidator.DatabaseAcceptedIffNoIssues` states its contract. |
| SchemaValidator.SpalidateOutcome | src/validatebot.ts:70-130 | The definition of `validateSpalidate`: the block of the five declared fields and their issues in field order. The `Spalidate...` lemmas state its contract. |
| SchemaValidator.SchemaOutcome | src/validatebot.ts:12-53 | The definition of `validateConfigSchema`: the single root issue, or every field's issues, or the checked data. `SchemaValidator.EveryFieldChecked` and `SchemaValidator.ValidConfigContents` state its contract. |
| JsValue.IsPlainObject | src/validatebot.ts:151-153 | The definition of `isPlainObject`: an object that is neither `null` nor an array. |
| JsValue.IsRecordOfStrings | src/validatebot.ts:155-160 | The definition of `isRecordOfStrings`: a plain object all of whose values are strings. |
| SchemaValidator.ReadStringBehaviour | src/validatebot.ts:132-149 | An absent value is an issue only when required. A non-string or blank string is exactly one issue, even when optional. Otherwise the value is returned untrimmed with no issue. Every issue is at `path`. |
| SchemaValidator.RequiredStringIffNoIssue | src/validatebot.ts:132-149 | A required string yields a value exactly when it adds no issue. |
| SchemaValidator.DatabaseAcceptedIffNoIssues | src/validatebot.ts:55-68 | A non-object is exactly one issue at `database`. A record is returned exactly when all three fields are non-blank strings, which is exactly when no issue is added. The record holds the three strings as written. |
| SchemaValidator.SpalidateNonObject | src/validatebot.ts:71-77 | `undefined` gives no block and no issue. Any other non-object, `null` included, gives exactly one `spalidate` issue. |
| SchemaValidator.SpalidateBlockKept | src/validatebot.ts:79-129 | A plain-object block always yields a block, and `timeout` is never kept. |
| SchemaValidator.SpalidateIssuesInOrder | src/validatebot.ts:81-127 | The block's issues are those of command, args, env, spawnOptions and workingDirectory, in that order. |
| SchemaValidator.SpalidateArgs | src/validatebot.ts:86-95 | `args` is kept as written exactly when it is an array of strings. Any other present value adds the `spalidate.args` issue, and only such a value does. |
| SchemaValidator.SpalidateEnv | src/validatebot.ts:97-106 | `env` is kept exactly when it is an object of string values. Any other present value adds the `spalidate.env` issue. |
| SchemaValidator.SpalidateSpawnOptions | src/validatebot.ts:108-117 | `spawnOptions` is kept exactly when it is a plain object. Any other present value adds the `spalidate.spawnOptions` issue. |
| SchemaValidator.NonObjectRootOneIssue | src/validatebot.ts:17-27 | A root that is not a plain object fails with exactly one issue, whose path is `''`. |
| SchemaValidator.EveryFieldChecked | src/validatebot.ts:30-52 | There is no short-circuit: all four fields are checked and their issues are appended in order. The result is valid exactly when there are none. |
| SchemaValidator.ValidConfigContents | src/validatebot.ts:40-52 | On success the data holds `schemaFile` and the database record as written. A given `defaultExpectedData` is kept as written. A `spalidate` block is present exactly when one was given, with its `command` and `workingDirectory` as written and no `timeout`. |
| PathGuard.EnsureWithinBase | src/path-utils.ts:7-15 | The definition of `ensureWithinBase`. A returned path is `resolve(value)`, and a refusal carries the resolved path and the resolved base. |
| PathGuard.EnsureWithinBaseIff | src/path-utils.ts:7-15 | The guard returns `resolve(value)` exactly when the resolved path equals the resolved base, or lies below it with a first segment that does not begin with `..`. Otherwise it throws, naming both resolved paths. |
| PathGuard.AcceptedLiesWithinBase | src/path-utils.ts:8-14 | A returned path is `resolve(value)` and lies at or below the resolved base. |
| PathGuard.EscapingPathRejected | src/path-utils.ts:11-13 | A path outside the base is refused. |
| PathGuard.BaseAccepted | src/path-utils.ts:10-11 | The base itself is accepted. |
| PathGuard.DotDotNamedChildRejected | src/path-utils.ts:11 | The string-prefix quirk: an entry below the base whose name begins with `..` is refused, although it lies inside the base. |
| PathGuard.EnsureWithinBaseIdempotent | src/path-utils.ts:8-14 | Guarding a guarded path returns it unchanged. |
| PathGuard.ChildOfBaseAccepted | src/path-utils.ts:8-14 | A relative path of names below the base, not beginning with `..`, is accepted as the base's segments followed by those names. |
| PosixPath.Resolve | src/path-utils.ts:8-9 | The definition of Node's POSIX `path.resolve`: the arguments from the right up to the first absolute one, else prefixed with the working directory, then normalised. |
| PosixPath.Relative | src/path-utils.ts:10 | The definition of `path.relative`: `''` for equal paths, else one `..` per segment of `from` below the common prefix, then the rest of `to`. `PosixPath.RelativeShape` states its contract. |
| PosixPath.Dirname | src/config-loader.ts:73 | The definition of `path.dirname`: the path up to its last separator that has a non-separator after it. `PosixPath.DirnameOfRendered` states its contract. |
| PosixPath.ResolveRendered | src/path-utils.ts:8 | `path.resolve` of a resolved path gives back the same segments and the same string. |
| PosixPath.ResolveIdempotent | src/path-utils.ts:8 | Resolving twice is resolving once. |
| PosixPath.RenderInjective | src/path-utils.ts:8 | Distinct normal segment lists are distinct paths. |
| PosixPath.RelativeShape | src/path-utils.ts:10-11 | `path.relative` from base to p is empty exactly when they are equal. It starts with `..` exactly when p is not below the base or its first segment below the base starts with `..`. |
| PosixPath.DirnameOfRendered | src/config-loader.ts:73 | `path.dirname` of a resolved path is that path without its last segment. |
| PosixPath.ResolveChild | src/client.ts:70 | Resolving a relative path of names against a directory appends those names to the directory's segments. |
| ConfigResolution.ResolveConfigPath | src/config-loader.ts:31-42 | The definition of `resolveConfigPath`, which `src/config.ts:51-62` repeats. `ConfigResolution.DiscoveryOrder` states its contract. |
| ConfigResolution.DiscoveryOrder | src/config-loader.ts:31-42 | A truthy explicit path comes first, then a truthy `PLAYWRIGHT_SPANNER_ASSERT_CONFIG`, then `cwd/playwright-spanner-assert.yaml`. A returned path is there. A candidate that is not there fails, naming it. |
| ConfigResolution.AssertField | src/config-loader.ts:134-138 | The check fails exactly for `null`, `undefined` and a blank string, naming the field. |
| ConfigResolution.AssertFields | src/config-loader.ts:67-71 | A run of assertions passes exactly when each one does. Otherwise it fails with the first failing one, all earlier ones having passed. |
| ConfigResolution.ResolvePath | src/config-loader.ts:74-75 | `resolvePath` yields a path exactly when the value is truthy, and that path is absolute. |
| ConfigResolution.ResolvePathNormal | src/config-loader.ts:74-75 | An absolute value is kept (normalised), and resolving a resolved value again changes nothing. |
| ConfigResolution.ResolveSpalidate | src/config-loader.ts:120-132 | No block stays none. Otherwise the copy differs from the block only in `workingDirectory`, which is rewritten against the configuration directory when truthy. |
| ClosureLoader.ParseConfig | src/config-loader.ts:44-85 | The definition of `parseConfig`: the YAML outcome, the schema check, the field assertions, then the paths resolved against `dirname(configPath)`. `ClosureLoader.ParseConfigOutcome` and `ClosureLoader.ParsedConfigContents` state its contract. |
| ClosureLoader.LoadStep | src/config-loader.ts:87-106 | The definition of `load(force)` as a step from the closure's variables to the result and the new variables. `ClosureLoader.ReloadIff`, `ClosureLoader.FailureLeavesCache` and `ClosureLoader.SuccessCaches` state its contract. |
| ClosureLoader.SetConfigPathStep | src/config-loader.ts:108-115 | The definition of `setConfigPath` as a step. `ClosureLoader.SetConfigPathResets` states its contract. |
| ClosureLoader.ValidatedConfigPassesAssertions | src/config-loader.ts:58-71 | After a successful schema check the field assertions never fire. |
| ClosureLoader.ParseConfigOutcome | src/config-loader.ts:44-85 | A YAML syntax error and a failed schema check are parsing errors, the latter carrying the whole issue list. Parsing succeeds exactly when the document is schema-valid. |
| ClosureLoader.ParsedConfigContents | src/config-loader.ts:73-84 | `configDir` is `dirname(configPath)`. `schemaFile` is resolved against it. `defaultExpectedData` is resolved when given and stays absent otherwise. The database record is unchanged, and only the block's working directory is rewritten. |
| ClosureLoader.ConfigLoader.constructor | src/config-loader.ts:23-29 | The loader starts with the given path and an empty, coherent cache. |
| ClosureLoader.ConfigLoader.Load | src/config-loader.ts:87-106 | `load(force)` returns the step's result and leaves the step's state in the closure's variables. |
| ClosureLoader.ConfigLoader.SetConfigPath | src/config-loader.ts:108-115 | `setConfigPath` leaves the state the reset step describes. |
| ClosureLoader.ReloadIff | src/config-loader.ts:90-98 | `load` reparses exactly when forced, when the cache is empty, or when the path or modification time differs. Otherwise it returns the cache and changes nothing. |
| ClosureLoader.CacheHitIgnoresContents | src/config-loader.ts:96-98 | A cache hit does not read the file: changing its contents changes nothing. |
| ClosureLoader.FailureLeavesCache | src/config-loader.ts:87-106 | A failed load leaves the path and all three cache parts as they were. |
| ClosureLoader.SuccessCaches | src/config-loader.ts:100-105 | A successful load caches the returned configuration with the file's path and modification time. |
| ClosureLoader.SecondLoadHitsCache | src/config-loader.ts:90-98 | Loading again from an unchanged file system, unforced, hits the cache. |
| ClosureLoader.MtimeChangeReloads | src/config-loader.ts:90-94 | A changed modification time makes `load` reparse. |
| ClosureLoader.SetConfigPathResets | src/config-loader.ts:108-115 | A truthy path replaces the path and clears the cache, so the next load reparses. `undefined` or `''` changes nothing. |
| ClosureLoader.StepsKeepCoherent | src/config-loader.ts:87-115 | Both steps keep the cache all-present or all-absent, with the cached configuration's directory being that of the cached path. |
| ClassLoader.ParseConfigLoose | src/config.ts:64-96 | The definition of the class's `parseConfig`: the YAML outcome, the empty-document test, the five field assertions, then the object. `ClassLoader.ParseLooseFailures` and `ClassLoader.ParsedLooseContents` state its contract. |
| ClassLoader.LooseConfig | src/config.ts:82-95 | The definition of the object `parseConfig` returns from the unchecked document. `ClassLoader.ParsedLooseContents` states its contract. |
| ClassLoader.ClassLoadStep | src/config.ts:33-44 | The definition of `load(force)` as a step over the class's fields. `ClassLoader.CacheHitIgnoresHost` and `ClassLoader.ReloadCaches` state its contract. |
| ClassLoader.ClassSetConfigPath | src/config.ts:25-31 | The definition of `setConfigPath` as a step. `ClassLoader.ClassSetConfigPathResets` states its contract. |
| ClassLoader.LooseString | src/config.ts:77-92 | A database property is kept when it is a string. Any other value fails as a type mismatch naming the field. |
| ClassLoader.LooseField | src/config.ts:98-107 | An unchecked property reads as absent when nullish, is kept when of its declared type, and is a type mismatch otherwise. |
| ClassLoader.LooseSpalidate | src/config.ts:98-107 | A falsy block is none. A truthy non-object spreads to a block with no overrides. |
| ClassLoader.LoosePath | src/config.ts:83-84 | An unchecked path value fails exactly when it is truthy and not a string. Otherwise it is resolved as `resolvePath` does. |
| ClassLoader.ParseLooseFailures | src/config.ts:64-80 | A YAML error and an empty document fail with the package's base error, not a parsing error. Otherwise the first failing assertion of `schemaFile`, `database`, `database.projectId`, `database.instanceId`, `database.database` is reported as a missing field. |
| ClassLoader.SchemaFileAssertedFirst | src/config.ts:76 | A missing `schemaFile` is reported before anything about `database`. |
| ClassLoader.ParsedLooseContents | src/config.ts:82-95 | `configDir` is `dirname(configPath)`. A string `schemaFile` is resolved against it, and a falsy non-string leaves it absent. A non-empty string `defaultExpectedData` is resolved against it, and anything else leaves it absent. The database record holds the three strings as written. |
| ClassLoader.LooseTimeoutBlock | src/config.ts:98-107 | A block holding only `timeout` keeps it. |
| ClassLoader.LooseSpalidateKept | src/config.ts:86-95 | The parsed configuration holds the block as read. |
| ClassLoader.TimeoutKeptOnlyByClassLoader | src/config.ts:86 | `spalidate.timeout` survives the class loader's parsing, while the schema-checked closure loader drops it. |
| ClassLoader.ConfigLoader.constructor | src/config.ts:21-23 | The loader starts with the given path and an empty cache. |
| ClassLoader.ConfigLoader.SetConfigPath | src/config.ts:25-31 | `setConfigPath` leaves the state the reset step describes. |
| ClassLoader.ConfigLoader.Load | src/config.ts:33-44 | `load(force)` returns the step's result and stores its state in the fields. |
| ClassLoader.ConfigLoader.Clear | src/config.ts:46-49 | `clear()` empties both cache fields and keeps the path. |
| ClassLoader.CacheHitIgnoresHost | src/config.ts:34-36 | An unforced load with a filled cache returns the cache without looking at the file system at all, and changes nothing. |
| ClassLoader.ReloadCaches | src/config.ts:38-43 | A forced load, or one with an empty cache, resolves, reads and parses, then caches the result with its path. A failure changes nothing. |
| ClassLoader.ClassSetConfigPathResets | src/config.ts:25-31 | A truthy path replaces the path and clears the cache. A falsy one changes nothing. |
| ClassLoader.LoadersDifferOnRewrittenFile | src/config.ts:34-36 | On a file rewritten behind a filled cache, the closure loader reparses and the class loader returns its cache. |
| PlaceholderSyntax.TokenOfWord | src/spalidate-runner.ts:84 | A `{word}` token is matched whole, whatever follows it. |
| SpalidateRunner.ReplacePlaceholders | src/spalidate-runner.ts:82-90 | The definition of `replacePlaceholders`: one left-to-right scan for `{word}` tokens. The lemmas below state its contract. |
| SpalidateRunner.BuildPlaceholderMap | src/spalidate-runner.ts:67-80 | The definition of `buildPlaceholderMap`. `SpalidateRunner.PlaceholderValues` states its contract. |
| SpalidateRunner.PlanSpawn | src/spalidate-runner.ts:31-51 | The definition of everything `runSpalidate` hands to `spawn`: the command, the filled arguments and the options. `SpalidateRunner.ComputedCwdAndEnvWin` and `SpalidateRunner.DefaultInvocation` state its contract. |
| SpalidateRunner.ExitOutcome | src/spalidate-runner.ts:45-63 | The promise passes exactly on exit code 0. A throw from `spawn` rejects with the thrown error, and every other failure is a `SpalidateExecution` error. |
| SpalidateRunner.RunSpalidate | src/spalidate-runner.ts:31-65 | The definition of `runSpalidate`: the first event of the planned spawn, mapped to an outcome. `SpalidateRunner.RunPassesIffExitZero` states its contract. |
| SpalidateRunner.UnknownKeysKept | src/spalidate-runner.ts:85-87 | A template none of whose token keys has a value comes back unchanged. |
| SpalidateRunner.NoBraceUnchanged | src/spalidate-runner.ts:82-90 | A template without `{` comes back unchanged. |
| SpalidateRunner.ReplaceSingleToken | src/spalidate-runner.ts:84-88 | A lone token becomes its key's value, or stays as written when the key has none. |
| SpalidateRunner.ReplaceConcat | src/spalidate-runner.ts:83 | The single left-to-right pass distributes over concatenation when the left part does not end in an unfinished token. |
| SpalidateRunner.ValueNotRescanned | src/spalidate-runner.ts:83 | An inserted value is never scanned again, even when it looks like a token. |
| SpalidateRunner.InstantiateArgs | src/spalidate-runner.ts:36 | The argument list has the template's length. |
| SpalidateRunner.InstantiateArgsAt | src/spalidate-runner.ts:36 | Argument i is template i, filled. |
| SpalidateRunner.MergeEnv | src/spalidate-runner.ts:37-40 | The environment has the keys of both sides. Configured entries win on a collision, and other ambient entries are kept. |
| SpalidateRunner.SanitizedSpawnOptions | src/spalidate-runner.ts:92-100 | `undefined` stays `undefined`. Otherwise the copy has every key but `cwd` and `env`, each with its value unchanged. |
| SpalidateRunner.SanitizeSpawnOptions | src/spalidate-runner.ts:92-100 | Copying and then deleting `cwd` and `env` gives the sanitised options. |
| SpalidateRunner.ComputedCwdAndEnvWin | src/spalidate-runner.ts:42-51 | The spawn's `cwd` and `env` are always the runner's own. Every other configured option reaches `spawn` as configured. |
| SpalidateRunner.TemplateShapeFilled | src/spalidate-runner.ts:33-36 | In a template shaped like the default, the words pass as written and each token becomes its value, or stays when it has none. |
| SpalidateRunner.PlaceholderValues | src/spalidate-runner.ts:67-80 | The map holds exactly the seven keys. It gives the database fields, the expected file, `configDir`, and `expectedDir` as the expected file's directory. `schemaFile` has a value exactly when one is configured. |
| SpalidateRunner.DefaultArgsFilled | src/spalidate-runner.ts:11-24 | The default template, filled, has the schema file (or `{schemaFile}` as written), project, instance, database and expected file in their places. |
| SpalidateRunner.DefaultInvocation | src/spalidate-runner.ts:32-51 | With no block, the run spawns `npx` with the default template in the configuration directory, with the ambient environment. |
| SpalidateRunner.RunPassesIffExitZero | src/spalidate-runner.ts:53-63 | The run passes exactly when the child exits with code 0. A throw from `spawn` rejects with the thrown `SpawnError`. Every other failure is a `SpalidateExecution` error. |
| SpalidateRunner.ExitMessageIdentifiesCode | src/spalidate-runner.ts:57-63 | Non-zero exits reported alike have the same code, and `unknown` is never confused with a number. |
| JsString.Trim | src/validatebot.ts:144 | `trim()` cuts a whitespace prefix and suffix. The result is empty exactly when the string is blank, and otherwise neither starts nor ends with whitespace. |
| JsString.TrimKeepsUnpadded | src/client.ts:66 | A string that neither starts nor ends with whitespace trims to itself. |
| JsString.NatToStringRoundTrip | src/spalidate-runner.ts:61 | The decimal digits written for an exit code read back as that code. |
| JsString.IntToStringInjective | src/spalidate-runner.ts:61 | Distinct integers are written as distinct strings. |
| ValidationRunner.ValidationPlaceholders | src/validation.ts:38-46 | The placeholder map has exactly the seven keys. `schemaFile` is `''` when absent, and `expectedDir` is `dirname(expectedFile)`. |
| ValidationRunner.SubstituteInline | src/validation.ts:48-50 | The definition of the inline `arg.replace(…)` with its `?? {key}` replacer. `ValidationRunner.InlineAgreesWithRunner` states its contract. |
| ValidationRunner.ValidationSpawn | src/validation.ts:33-63 | The definition of everything the `src/validation.ts` runner hands to `spawn`, with the configured options spread last. `ValidationRunner.SpawnOptionsOverrideAll` and `ValidationRunner.ValidationDefaults` state its contract. |
| ValidationRunner.HappeningOutcome | src/validation.ts:57-87 | The promise passes exactly on an exit with code 0. A throw from `spawn` rejects with the thrown error, and every other failure, the timeout included, is a `SpalidateExecution` error. |
| ValidationRunner.RunValidation | src/validation.ts:24-89 | The definition of the `runSpalidate` of `src/validation.ts`: the blank-command check, then the first happening of the planned spawn. `ValidationRunner.ValidationPassesIffExitZero` states its contract. |
| ValidationRunner.InlineAgreesWithRunner | src/validation.ts:48-50 | Rebuilding an unknown token from its key gives back the token as matched, so inline substitution equals `replacePlaceholders`. |
| ValidationRunner.InlineArgsAgree | src/validation.ts:48-50 | Both runners make the same arguments from the same template and values. |
| ValidationRunner.SpawnOptionsOverrideAll | src/validation.ts:57-63 | Every configured spawn option, `cwd` and `env` included, reaches `spawn` as configured. Without any, the options are the computed ones. |
| ValidationRunner.RunnersDisagreeOnConfiguredCwd | src/validation.ts:62 | A configured `cwd` is used by this runner and ignored by `src/spalidate-runner.ts`. |
| ValidationRunner.ValidationDefaults | src/validation.ts:6-16 | With no block, this runner spawns `spalidate --project … --instance … --database … <file>` in the configuration directory, with the ambient environment and a 60000 ms timer. |
| ValidationRunner.ValidationDefaultArgs | src/validation.ts:7-15 | The default template fills to the three flags with their database fields, then the file. |
| ValidationRunner.SpawnPromise.constructor | src/validation.ts:56-68 | A new promise is unsettled, with no timer armed yet and the child not killed. |
| ValidationRunner.SpawnPromise.Launch | src/validation.ts:56-68 | The executor's synchronous part: a throw from `spawn` rejects with the thrown error and arms no timer. Otherwise the timer is armed. |
| ValidationRunner.SpawnPromise.Settle | src/validation.ts:56 | Only the first `resolve`/`reject` has an effect. |
| ValidationRunner.SpawnPromise.OnTimer | src/validation.ts:65-68 | The timer callback, while armed, kills the child and rejects with the timeout message. |
| ValidationRunner.SpawnPromise.OnChildEvent | src/validation.ts:70-87 | A child event clears the timer and settles with its outcome, unless already settled. |
| ValidationRunner.Race | src/validation.ts:56-88 | Delivering happenings in order settles the promise with the first one. A throw from `spawn` settles it before any timer is armed. Later happenings, a late timer included, change nothing. |
| ValidationRunner.BlankCommandRefused | src/validation.ts:29-33 | A present but blank command fails before anything is spawned. An absent command becomes `spalidate`. |
| ValidationRunner.ValidationPassesIffExitZero | src/validation.ts:65-87 | The run passes exactly when the command is not blank and the child exits with 0 before the timer fires. A blank command fails with `SpalidateExecution`, and so does every other failure except a throw from `spawn`, which rejects with the thrown `SpawnError`. |
| ValidationRunner.SignalReported | src/validation.ts:80 | A signal is reported exactly when it is a non-empty name, in parentheses. |
| ValidationRunner.LaunchMessageKept | src/validation.ts:70-73 | A launch error reports the underlying message, which can be read back. |
| ValidationRunner.TimeoutMessageNamesDelay | src/validation.ts:67 | The timeout message names the delay. |
| Client.Candidates | src/client.ts:66-74 | A non-blank path gives `[resolve(configDir, p), resolve(cwd, p)]`. A blank one gives the default if set, else nothing. |
| Client.Search | src/client.ts:76-89 | The loop finds nothing exactly when every candidate passes the guard and is not there. |
| Client.SearchFoundIsFirst | src/client.ts:76-89 | A found file is the first candidate not skipped, guarded, and it is there. |
| Client.SearchFailureIsFirst | src/client.ts:78-82 | A failure names the first candidate not skipped, which the guard refuses. |
| Client.ResolveExpectedFile | src/client.ts:62-93 | The definition of `resolveExpectedFile`: the guarded search over the candidates, then the not-found error. The `Client.Search...` lemmas and `Client.ExpectedFileWithinConfigDir` state its contract. |
| Client.FindExpectedFile | src/client.ts:62-93 | The push-and-loop implementation returns what `resolveExpectedFile` specifies. |
| Client.SearchFoundWithinBase | src/client.ts:79-85 | A found candidate lies at or below the configuration directory and is there. |
| Client.ExpectedFileWithinConfigDir | src/client.ts:79-85 | Any returned path lies at or below the configuration directory and is there. |
| Client.EscapeStopsSearch | src/client.ts:78-82 | An escaping first candidate fails at once, naming it, even when the second is there. |
| Client.NotFoundNamesPath | src/client.ts:91-92 | When nothing is there, the error names the trimmed path, else the default, else `unknown`. |
| Client.DefaultUsedForBlankPath | src/client.ts:66-74 | A configured default inside the configuration directory that is there is used for a blank path. |
| Client.CallerPathUnderConfigDir | src/client.ts:67-85 | A caller path of names below the configuration directory resolves there when that file is there. |
| Client.PlaywrightSpannerAssertClient.constructor | src/client.ts:22-29 | A provided loader is used as is. Otherwise a new one is created with the given path. |
| Client.PlaywrightSpannerAssertClient.SetConfigPath | src/client.ts:31-33 | The call delegates to the loader. |
| Client.PlaywrightSpannerAssertClient.ValidateDatabaseState | src/client.ts:35-44 | The method returns load → resolve → run as specified, and leaves the load step's state. |
| Client.PlaywrightSpannerAssertClient.ReloadConfig | src/client.ts:46-48 | `reloadConfig` is `load(true)`. |
| Client.PlaywrightSpannerAssertClient.GetConfig | src/client.ts:50-52 | `getConfig` is `load()`. |
| Client.ValidateOutcome | src/client.ts:35-44 | The definition of `validateDatabaseState`: load, resolve, run. `Client.StagesInOrder` states its contract. |
| Client.StagesInOrder | src/client.ts:35-44 | A failed load or resolution is the outcome whatever the child would do. Otherwise the outcome is the run's, for the resolved file. |
| Client.DefaultDatasetValidated | tests/e2e/playwright-spanner-assert.spec.ts:61-65 | Validating with `''` runs the checker on the configured default, and passes exactly when it exits with 0. |
| Client.CustomDatasetValidated | tests/e2e/playwright-spanner-assert.spec.ts:67-71 | Validating with `expected/custom.yaml` runs the checker on that file under the configuration directory. |
| Facade.FirstExisting | src/playwright-spanner-assert.ts:46-50 | The result is the first candidate that is there, or nothing exactly when none is. |
| Facade.ResolveExpectedFile | src/playwright-spanner-assert.ts:36-62 | The definition of the facade's `resolveExpectedFile`. `Facade.ResolutionCases` states its contract. |
| Facade.FindExpectedFile | src/playwright-spanner-assert.ts:36-62 | The loop implementation returns what `resolveExpectedFile` specifies. |
| Facade.ResolutionCases | src/playwright-spanner-assert.ts:40-61 | A non-blank path tries the configuration directory, then the working directory, and fails naming the trimmed path; the default is never consulted. A blank path uses the default if it is there, else names it. With no default, the fixed message is reported. |
| Facade.FoundFileExists | src/playwright-spanner-assert.ts:46-58 | Whatever is returned is there. |
| Facade.FacadesDifferOnEscapingPath | src/playwright-spanner-assert.ts:41-50 | An existing file outside the configuration directory is refused by the client and returned by this facade. |
| Facade.ValidateOutcome | src/playwright-spanner-assert.ts:22-26 | The definition of the facade's `validateDatabaseState`: load, resolve, run. `Facade.StagesInOrder` states its contract. |
| Facade.StagesInOrder | src/playwright-spanner-assert.ts:22-26 | A failed load or resolution is the outcome whatever the child would do. Otherwise the outcome passes exactly when the child exits with 0. |
| Facade.PlaywrightSpannerAssert.constructor | src/playwright-spanner-assert.ts:14-16 | The facade creates a new class loader with the given path. |
| Facade.PlaywrightSpannerAssert.SetConfigPath | src/playwright-spanner-assert.ts:18-20 | The call delegates to the loader. |
| Facade.PlaywrightSpannerAssert.ValidateDatabaseState | src/playwright-spanner-assert.ts:22-26 | The method returns load → resolve → run as specified, and leaves the load step's state. |
| Facade.PlaywrightSpannerAssert.ReloadConfig | src/playwright-spanner-assert.ts:28-30 | `reloadConfig` is `load(true)`. |
| Facade.PlaywrightSpannerAssert.GetConfig | src/playwright-spanner-assert.ts:32-34 | `getConfig` is `load()`. |

## Left out

- Real file access (`fs.access`, `fs.stat`, `fs.readFile`, `src/fs-utils.ts`) and YAML parsing are not modelled. The `Host` snapshot supplies existence, a modification-time token and the parse outcome. `mtimeMs` is an integer compared only for equality, not a float.
- Which spawn requests make Node's `spawn` throw synchronously (an empty command, options of the wrong type) is not modelled. The child-process function says whether the first event is such a throw.
- ClassLoader.ConfigLoader.Load, ClosureLoader.ConfigLoader.Load: `load` and `setConfigPath` are modelled as atomic steps. The interleaving a caller can cause at `load`'s `await`s (reading the path, `fs.access`, `fs.stat`, `fs.readFile`) is not modelled. Suppose a class-loader `load` reads path A, and then `setConfigPath(B)` runs while it waits. The load then caches A's configuration after the reset, and every later unforced load returns A's configuration under path B until a forced reload (src/config.ts:33-42). The closure loader recovers on its next load, because the cached path then differs from the configured one (src/config-loader.ts:87-106). So `ClassLoader.ClassSetConfigPathResets` and `ClosureLoader.SetConfigPathResets` hold only when no load is in flight.
- Process spawning, inherited stdio and `process.env`/`process.platform`/`process.cwd()` are inputs. The child process is a function to its first event.
- The asynchronous race in `src/validation.ts` is modelled only as a sequence of happenings delivered in order: the timer, `error` and `exit`. `SIGKILL` delivery is a flag. Promise scheduling and the event loop are not modelled.
- `onDebug` callbacks are left out because they only observe.
- `src/client.ts` passes `timeoutMs` and `onDebug` to the runner, which ignores both, so the model does not pass them.
- Windows path semantics (drive letters, the `\` separator) are not modelled. `path` is Node's POSIX `path`.
- The placeholder map is a JavaScript object literal, so a key such as `{constructor}` or `{toString}` finds an `Object.prototype` member in the source. The model treats such keys as having no value.
- `Num` holds an integer: floating-point configuration values (a fractional `timeout`) are not modelled.
- ClassLoader.LooseString and ClassLoader.LooseConfig: the class loader only asserts that `database.projectId`, `database.instanceId` and `database.database` are neither nullish nor blank, then copies the record. So a non-blank non-string such as `database: 2024` loads, and the placeholder replacer later writes its text (`2024`) into the arguments. The model fails the load with `TypeMismatch` instead, because the typed database record holds only strings.
- ClassLoader.LooseField: where the class loader would carry a value of the wrong JavaScript type through unchecked (a numeric `command`, say), the model reports `TypeMismatch` instead, because the typed configuration cannot hold it.
- ClassLoader.LooseSpalidate: an array or string block, which a JavaScript spread turns into index-keyed properties, becomes the block with no overrides.
- SpalidateRunner.InstantiateArgs: its own contract states the length only. The element-wise content is stated by `SpalidateRunner.InstantiateArgsAt`.
- `src/config-schema.ts` is a zod declaration that the modelled code never imports, so it is not part of this model.
- `src/types.ts`, `src/errors.ts`, `src/index.ts` and `src/public-api.ts` hold only types, error constructors and re-exports. Errors are the `ConfigTypes.Error` datatype, and error messages are modelled by their data rather than their text, except the runners' messages.
- `spalidate.timeout` is read by `src/validation.ts:36` but is absent from `SpalidateConfig` in `src/types.ts:9-30`. The model gives the block an optional `timeout`, which only the class loader fills.
- Only a closure loader is modelled as the loader passed to `createClient`. Loaders of other shapes are not modelled.
