/** What the core reads from outside the process: the working directory, the
    environment variables, the platform and a snapshot of the file system. */
module Environment {
  import opened Wrappers
  import opened JsValue
  import opened PosixPath

  /** What parsing a file's text as YAML gives. */
  datatype YamlDocument = Document(value: Value) | SyntaxError(message: string)

  /** A file: its modification time (only ever compared for equality) and its parsed text. */
  datatype FileEntry = FileEntry(mtime: int, document: YamlDocument)

  /** `files` is keyed by resolved absolute path. */
  datatype Host = Host(
    cwd: AbsolutePath,
    env: map<string, string>,
    isWindows: bool,
    files: map<string, FileEntry>)

  const ConfigEnvVar := "PLAYWRIGHT_SPANNER_ASSERT_CONFIG"

  /** `fs.access(p)` succeeds. */
  predicate Exists(h: Host, p: string) {
    Resolve(h.cwd, [p]) in h.files
  }

  function Entry(h: Host, p: string): FileEntry
    requires Exists(h, p)
  {
    h.files[Resolve(h.cwd, [p])]
  }

  /** `process.env.PLAYWRIGHT_SPANNER_ASSERT_CONFIG` */
  function ConfigEnv(h: Host): Option<string> {
    if ConfigEnvVar in h.env then Some(h.env[ConfigEnvVar]) else None
  }
}
