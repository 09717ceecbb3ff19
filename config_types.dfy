/** The configuration records of `src/types.ts` and the error kinds of the package. */
module ConfigTypes {
  import opened Wrappers
  import opened JsValue

  /** One schema violation: the dotted field path (`''` for the root) and a message. */
  datatype Issue = Issue(path: string, message: string)

  datatype DatabaseConfig = DatabaseConfig(projectId: string, instanceId: string, database: string)

  /** The `spalidate` override block. `timeout` is not declared in `src/types.ts` but is
      read by `src/validation.ts`; only a loader that skips schema validation can fill it. */
  datatype SpalidateConfig = SpalidateConfig(
    command: Option<string>,
    args: Option<seq<string>>,
    env: Option<map<string, string>>,
    spawnOptions: Option<map<string, Value>>,
    workingDirectory: Option<string>,
    timeout: Option<int>)

  const NoOverrides := SpalidateConfig(None, None, None, None, None, None)

  /** The configuration document as checked, before any path is resolved. */
  datatype Config = Config(
    schemaFile: Option<string>,
    defaultExpectedData: Option<string>,
    database: DatabaseConfig,
    spalidate: Option<SpalidateConfig>)

  /** The configuration with its paths resolved against `configDir`, the directory of
      the configuration file. `schemaFile` is optional because one runner reads it
      with `?? ''`. */
  datatype ResolvedConfig = ResolvedConfig(
    schemaFile: Option<string>,
    defaultExpectedData: Option<string>,
    database: DatabaseConfig,
    spalidate: Option<SpalidateConfig>,
    configDir: string)

  datatype ParseFailure =
    | YamlSyntax(message: string)
    | SchemaInvalid(issues: seq<Issue>)
    | EmptyDocument

  /** The errors the package raises, with the detail each one carries. The closure
      loader raises `ParsingError` for a document it cannot read; the class loader
      raises the package's base error, `PackageError`, for the same failures. A
      `spawn` that throws before any child exists rejects with `SpawnError`, Node's
      own error rather than one of the package's. */
  datatype Error =
    | ConfigurationNotFound(path: string)
    | ParsingError(failure: ParseFailure)
    | PackageError(failure: ParseFailure)
    | MissingField(name: string)
    | TypeMismatch(field: string)
    | ExpectedDataNotFound(path: string)
    | SpalidateExecution(message: string)
    | SpawnError(message: string)
}
