/** The hand-written configuration checker of `src/validatebot.ts`. Every field check
    appends to one shared issue list, so a single pass reports every violation.

    The `...Outcome` functions say what each check yields and appends; the methods are
    the checks as the source performs them, pushing onto an `IssueList`. */
module SchemaValidator {
  import opened Wrappers
  import opened JsValue
  import opened JsString
  import opened ConfigTypes

  datatype ValidationResult = Valid(data: Config) | Invalid(issues: seq<Issue>)

  /** What one check yields and the issues it appends. */
  datatype Checked<T> = Checked(value: Option<T>, issues: seq<Issue>)

  const RootIssue := Issue("", "Configuration root must be an object")
  const DatabaseIssue := Issue("database", "database must be an object")
  const SpalidateIssue := Issue("spalidate", "spalidate must be an object if provided")
  const ArgsIssue := Issue("spalidate.args", "spalidate.args must be an array of strings")
  const EnvIssue := Issue("spalidate.env", "spalidate.env must be a record of string values")
  const SpawnOptionsIssue := Issue("spalidate.spawnOptions", "spalidate.spawnOptions must be an object")

  function RequiredIssue(path: string): Issue {
    Issue(path, path + " is required")
  }

  function NonEmptyIssue(path: string): Issue {
    Issue(path, path + " must be a non-empty string")
  }

  /** The mutable issue array every check pushes onto. */
  class IssueList {
    var items: seq<Issue>

    constructor ()
      ensures items == []
    {
      items := [];
    }

    method Push(issue: Issue)
      modifies this
      ensures items == old(items) + [issue]
    {
      items := items + [issue];
    }
  }

  // ---------------------------------------------------------------------------
  // What each check yields

  function ReadStringOutcome(value: Value, path: string, required: bool): Checked<string> {
    if IsNullish(value) then Checked(None, if required then [RequiredIssue(path)] else [])
    else if !value.Str? || IsBlank(value.s) then Checked(None, [NonEmptyIssue(path)])
    else Checked(Some(value.s), [])
  }

  function DatabaseOutcome(value: Value): Checked<DatabaseConfig> {
    if !IsPlainObject(value) then Checked(None, [DatabaseIssue])
    else
      var p := ReadStringOutcome(Field(value, "projectId"), "database.projectId", true);
      var i := ReadStringOutcome(Field(value, "instanceId"), "database.instanceId", true);
      var d := ReadStringOutcome(Field(value, "database"), "database.database", true);
      Checked(
        if p.value.Some? && i.value.Some? && d.value.Some?
        then Some(DatabaseConfig(p.value.value, i.value.value, d.value.value))
        else None,
        p.issues + i.issues + d.issues)
  }

  function ArgsOutcome(value: Value): Checked<seq<string>> {
    if value == Undefined then Checked(None, [])
    else if IsArrayOfStrings(value) then Checked(Some(Strings(value.items)), [])
    else Checked(None, [ArgsIssue])
  }

  function EnvOutcome(value: Value): Checked<map<string, string>> {
    if value == Undefined then Checked(None, [])
    else if IsRecordOfStrings(value) then Checked(Some(StringRecord(value.fields)), [])
    else Checked(None, [EnvIssue])
  }

  function SpawnOptionsOutcome(value: Value): Checked<map<string, Value>> {
    if value == Undefined then Checked(None, [])
    else if IsPlainObject(value) then Checked(Some(value.fields), [])
    else Checked(None, [SpawnOptionsIssue])
  }

  /** A plain-object `spalidate` block always yields a block, holding exactly the
      five known fields that passed; `timeout` and any other key are dropped. */
  function SpalidateOutcome(value: Value): Checked<SpalidateConfig> {
    if value == Undefined then Checked(None, [])
    else if !IsPlainObject(value) then Checked(None, [SpalidateIssue])
    else
      var c := ReadStringOutcome(Field(value, "command"), "spalidate.command", false);
      var a := ArgsOutcome(Field(value, "args"));
      var e := EnvOutcome(Field(value, "env"));
      var s := SpawnOptionsOutcome(Field(value, "spawnOptions"));
      var w := ReadStringOutcome(Field(value, "workingDirectory"), "spalidate.workingDirectory", false);
      Checked(
        Some(SpalidateConfig(c.value, a.value, e.value, s.value, w.value, None)),
        c.issues + a.issues + e.issues + s.issues + w.issues)
  }

  /** The issues of a plain-object root: every field's, in field order. */
  function RootIssues(input: Value): seq<Issue> {
    ReadStringOutcome(Field(input, "schemaFile"), "schemaFile", true).issues
    + ReadStringOutcome(Field(input, "defaultExpectedData"), "defaultExpectedData", false).issues
    + DatabaseOutcome(Field(input, "database")).issues
    + SpalidateOutcome(Field(input, "spalidate")).issues
  }

  function SchemaOutcome(input: Value): ValidationResult {
    if !IsPlainObject(input) then Invalid([RootIssue])
    else
      var issues := RootIssues(input);
      if issues != [] then Invalid(issues)
      else
        var db := DatabaseOutcome(Field(input, "database"));
        DatabaseAcceptedIffNoIssues(Field(input, "database"));
        Valid(Config(
          ReadStringOutcome(Field(input, "schemaFile"), "schemaFile", true).value,
          ReadStringOutcome(Field(input, "defaultExpectedData"), "defaultExpectedData", false).value,
          db.value.value,
          SpalidateOutcome(Field(input, "spalidate")).value))
  }

  // ---------------------------------------------------------------------------
  // The checks as the source performs them

  /** `readString(value, path, issues, required)` */
  method ReadString(value: Value, path: string, issues: IssueList, required: bool) returns (r: Option<string>)
    modifies issues
    ensures r == ReadStringOutcome(value, path, required).value
    ensures issues.items == old(issues.items) + ReadStringOutcome(value, path, required).issues
  {
    if IsNullish(value) {
      if required {
        issues.Push(RequiredIssue(path));
      }
      return None;
    }
    if !value.Str? || IsBlank(value.s) {
      issues.Push(NonEmptyIssue(path));
      return None;
    }
    return Some(value.s);
  }

  /** `validateDatabase(value, issues)` */
  method ValidateDatabase(value: Value, issues: IssueList) returns (r: Option<DatabaseConfig>)
    modifies issues
    ensures r == DatabaseOutcome(value).value
    ensures issues.items == old(issues.items) + DatabaseOutcome(value).issues
  {
    if !IsPlainObject(value) {
      issues.Push(DatabaseIssue);
      return None;
    }
    var projectId := ReadString(Field(value, "projectId"), "database.projectId", issues, true);
    var instanceId := ReadString(Field(value, "instanceId"), "database.instanceId", issues, true);
    var database := ReadString(Field(value, "database"), "database.database", issues, true);
    if projectId.Some? && instanceId.Some? && database.Some? {
      return Some(DatabaseConfig(projectId.value, instanceId.value, database.value));
    }
    return None;
  }

  /** The `args` block of `validateSpalidate`. */
  method CheckArgs(args: Value, issues: IssueList) returns (r: Option<seq<string>>)
    modifies issues
    ensures r == ArgsOutcome(args).value
    ensures issues.items == old(issues.items) + ArgsOutcome(args).issues
  {
    r := None;
    if args != Undefined {
      if IsArrayOfStrings(args) {
        r := Some(Strings(args.items));
      } else {
        issues.Push(ArgsIssue);
      }
    }
  }

  /** The `env` block of `validateSpalidate`. */
  method CheckEnv(env: Value, issues: IssueList) returns (r: Option<map<string, string>>)
    modifies issues
    ensures r == EnvOutcome(env).value
    ensures issues.items == old(issues.items) + EnvOutcome(env).issues
  {
    r := None;
    if env != Undefined {
      if IsRecordOfStrings(env) {
        r := Some(StringRecord(env.fields));
      } else {
        issues.Push(EnvIssue);
      }
    }
  }

  /** The `spawnOptions` block of `validateSpalidate`. */
  method CheckSpawnOptions(spawnOptions: Value, issues: IssueList) returns (r: Option<map<string, Value>>)
    modifies issues
    ensures r == SpawnOptionsOutcome(spawnOptions).value
    ensures issues.items == old(issues.items) + SpawnOptionsOutcome(spawnOptions).issues
  {
    r := None;
    if spawnOptions != Undefined {
      if IsPlainObject(spawnOptions) {
        r := Some(spawnOptions.fields);
      } else {
        issues.Push(SpawnOptionsIssue);
      }
    }
  }

  /** `validateSpalidate(value, issues)`: fills the result block field by field. */
  method ValidateSpalidate(value: Value, issues: IssueList) returns (r: Option<SpalidateConfig>)
    modifies issues
    ensures r == SpalidateOutcome(value).value
    ensures issues.items == old(issues.items) + SpalidateOutcome(value).issues
  {
    if value == Undefined {
      return None;
    }
    if !IsPlainObject(value) {
      issues.Push(SpalidateIssue);
      return None;
    }
    var result := NoOverrides;
    ghost var before := issues.items;
    ghost var c := ReadStringOutcome(Field(value, "command"), "spalidate.command", false);
    ghost var a := ArgsOutcome(Field(value, "args"));
    ghost var e := EnvOutcome(Field(value, "env"));
    ghost var s := SpawnOptionsOutcome(Field(value, "spawnOptions"));
    ghost var w := ReadStringOutcome(Field(value, "workingDirectory"), "spalidate.workingDirectory", false);

    var command := ReadString(Field(value, "command"), "spalidate.command", issues, false);
    if command.Some? && command.value != "" {
      result := result.(command := command);
    }
    ghost var i1 := issues.items;
    var args := CheckArgs(Field(value, "args"), issues);
    if args.Some? {
      result := result.(args := args);
    }
    ghost var i2 := issues.items;
    var env := CheckEnv(Field(value, "env"), issues);
    if env.Some? {
      result := result.(env := env);
    }
    ghost var i3 := issues.items;
    var spawnOptions := CheckSpawnOptions(Field(value, "spawnOptions"), issues);
    if spawnOptions.Some? {
      result := result.(spawnOptions := spawnOptions);
    }
    ghost var i4 := issues.items;
    var workingDirectory := ReadString(Field(value, "workingDirectory"), "spalidate.workingDirectory", issues, false);
    if workingDirectory.Some? && workingDirectory.value != "" {
      result := result.(workingDirectory := workingDirectory);
    }
    assert result == SpalidateConfig(c.value, a.value, e.value, s.value, w.value, None);
    assert issues.items == before + c.issues + a.issues + e.issues + s.issues + w.issues;
    SeqAppendAssoc5(before, c.issues, a.issues, e.issues, s.issues, w.issues);
    return Some(result);
  }

  lemma SeqAppendAssoc5<T>(x: seq<T>, a: seq<T>, b: seq<T>, c: seq<T>, d: seq<T>, e: seq<T>)
    ensures x + a + b + c + d + e == x + (a + b + c + d + e)
  {
    calc {
      x + a + b + c + d + e;
      x + (a + b) + c + d + e;
      x + (a + b + c) + d + e;
      x + (a + b + c + d) + e;
      x + (a + b + c + d + e);
    }
  }

  /** `validateConfigSchema(input)` */
  method ValidateConfigSchema(input: Value) returns (r: ValidationResult)
    ensures r == SchemaOutcome(input)
  {
    var issues := new IssueList();
    if !IsPlainObject(input) {
      return Invalid([RootIssue]);
    }
    var schemaFile := ReadString(Field(input, "schemaFile"), "schemaFile", issues, true);
    assert issues.items == ReadStringOutcome(Field(input, "schemaFile"), "schemaFile", true).issues;
    var defaultExpectedData := ReadString(Field(input, "defaultExpectedData"), "defaultExpectedData", issues, false);
    var database := ValidateDatabase(Field(input, "database"), issues);
    var spalidate := ValidateSpalidate(Field(input, "spalidate"), issues);
    assert issues.items == RootIssues(input);
    if |issues.items| > 0 {
      return Invalid(issues.items);
    }
    DatabaseAcceptedIffNoIssues(Field(input, "database"));
    return Valid(Config(schemaFile, defaultExpectedData, database.value, spalidate));
  }

  // ---------------------------------------------------------------------------
  // Properties

  /** `readString`: an absent value is an issue only when required; a non-string or
      blank string is exactly one issue even when optional; anything else is returned
      as it is, untrimmed, with no issue. Every issue is at `path`. */
  lemma ReadStringBehaviour(value: Value, path: string, required: bool)
    ensures var o := ReadStringOutcome(value, path, required);
      && (o.value.Some? <==> value.Str? && !IsBlank(value.s))
      && (o.value.Some? ==> o.value.value == value.s && o.issues == [])
      && (IsNullish(value) ==> o.issues == (if required then [RequiredIssue(path)] else []))
      && (!IsNullish(value) && o.value.None? ==> o.issues == [NonEmptyIssue(path)])
      && |o.issues| <= 1
      && forall k :: 0 <= k < |o.issues| ==> o.issues[k].path == path
  {
  }

  /** A required string yields a value exactly when it adds no issue. */
  lemma RequiredStringIffNoIssue(value: Value, path: string)
    ensures ReadStringOutcome(value, path, true).value.Some? <==> ReadStringOutcome(value, path, true).issues == []
  {
  }

  /** `validateDatabase`: a non-object is exactly one issue at `database`; an object
      yields a record exactly when its three fields are non-blank strings, which is
      exactly when it adds no issue. */
  lemma DatabaseAcceptedIffNoIssues(value: Value)
    ensures !IsPlainObject(value) ==> DatabaseOutcome(value) == Checked(None, [DatabaseIssue])
    ensures DatabaseOutcome(value).value.Some? <==> DatabaseOutcome(value).issues == []
    ensures DatabaseOutcome(value).value.Some? <==>
              && IsPlainObject(value)
              && Field(value, "projectId").Str? && !IsBlank(Field(value, "projectId").s)
              && Field(value, "instanceId").Str? && !IsBlank(Field(value, "instanceId").s)
              && Field(value, "database").Str? && !IsBlank(Field(value, "database").s)
    ensures DatabaseOutcome(value).value.Some? ==>
              DatabaseOutcome(value).value.value ==
                DatabaseConfig(Field(value, "projectId").s, Field(value, "instanceId").s, Field(value, "database").s)
  {
    if IsPlainObject(value) {
      RequiredStringIffNoIssue(Field(value, "projectId"), "database.projectId");
      RequiredStringIffNoIssue(Field(value, "instanceId"), "database.instanceId");
      RequiredStringIffNoIssue(Field(value, "database"), "database.database");
    }
  }

  /** `validateSpalidate`: `undefined` is no block and no issue; any other non-object,
      `null` included, is no block and exactly one issue at `spalidate`. */
  lemma SpalidateNonObject(value: Value)
    requires !IsPlainObject(value)
    ensures SpalidateOutcome(value) ==
              if value == Undefined then Checked(None, []) else Checked(None, [SpalidateIssue])
  {
  }

  /** A plain-object `spalidate` always yields a block, and never keeps `timeout`. */
  lemma SpalidateBlockKept(value: Value)
    requires IsPlainObject(value)
    ensures SpalidateOutcome(value).value.Some?
    ensures SpalidateOutcome(value).value.value.timeout.None?
  {
  }

  /** The issues of a plain-object `spalidate`: each field's, in field order. */
  lemma SpalidateIssuesInOrder(value: Value)
    requires IsPlainObject(value)
    ensures SpalidateOutcome(value).issues ==
              ReadStringOutcome(Field(value, "command"), "spalidate.command", false).issues
              + ArgsOutcome(Field(value, "args")).issues
              + EnvOutcome(Field(value, "env")).issues
              + SpawnOptionsOutcome(Field(value, "spawnOptions")).issues
              + ReadStringOutcome(Field(value, "workingDirectory"), "spalidate.workingDirectory", false).issues
  {
  }

  /** `spalidate.args` is kept exactly when it is an array of strings, as written;
      anything else that is present is one issue at `spalidate.args`. */
  lemma SpalidateArgs(value: Value)
    requires IsPlainObject(value)
    ensures var o := SpalidateOutcome(value); var b := o.value.value;
      && (b.args.Some? <==> IsArrayOfStrings(Field(value, "args")))
      && (b.args.Some? ==> Field(value, "args") == Arr(seq(|b.args.value|, k requires 0 <= k < |b.args.value| => Str(b.args.value[k]))))
      && (ArgsIssue in o.issues <==> Field(value, "args") != Undefined && !IsArrayOfStrings(Field(value, "args")))
  {
    var o := SpalidateOutcome(value);
    var b := o.value.value;
    SpalidateIssuesInOrder(value);
    ReadStringBehaviour(Field(value, "command"), "spalidate.command", false);
    ReadStringBehaviour(Field(value, "workingDirectory"), "spalidate.workingDirectory", false);
    if b.args.Some? {
      var items := Field(value, "args").items;
      assert items == seq(|b.args.value|, k requires 0 <= k < |b.args.value| => Str(b.args.value[k]));
    }
  }

  /** `spalidate.env` is kept exactly when it is an object of strings, as written;
      anything else that is present is one issue at `spalidate.env`. */
  lemma SpalidateEnv(value: Value)
    requires IsPlainObject(value)
    ensures var o := SpalidateOutcome(value); var b := o.value.value;
      && (b.env.Some? <==> IsRecordOfStrings(Field(value, "env")))
      && (b.env.Some? ==> StringsObject(b.env.value) == Field(value, "env"))
      && (EnvIssue in o.issues <==> Field(value, "env") != Undefined && !IsRecordOfStrings(Field(value, "env")))
  {
    var o := SpalidateOutcome(value);
    var b := o.value.value;
    SpalidateIssuesInOrder(value);
    ReadStringBehaviour(Field(value, "command"), "spalidate.command", false);
    ReadStringBehaviour(Field(value, "workingDirectory"), "spalidate.workingDirectory", false);
    if b.env.Some? {
      assert StringsObject(b.env.value).fields == Field(value, "env").fields;
    }
  }

  /** `spalidate.spawnOptions` is kept exactly when it is a plain object, as written;
      anything else that is present is one issue at `spalidate.spawnOptions`. */
  lemma SpalidateSpawnOptions(value: Value)
    requires IsPlainObject(value)
    ensures var o := SpalidateOutcome(value); var b := o.value.value;
      && (b.spawnOptions.Some? <==> IsPlainObject(Field(value, "spawnOptions")))
      && (b.spawnOptions.Some? ==> Obj(b.spawnOptions.value) == Field(value, "spawnOptions"))
      && (SpawnOptionsIssue in o.issues <==>
            Field(value, "spawnOptions") != Undefined && !IsPlainObject(Field(value, "spawnOptions")))
  {
    SpalidateIssuesInOrder(value);
    ReadStringBehaviour(Field(value, "command"), "spalidate.command", false);
    ReadStringBehaviour(Field(value, "workingDirectory"), "spalidate.workingDirectory", false);
  }

  /** A root that is not a plain object (null, an array, a primitive) fails with exactly
      one issue, at path `''`. */
  lemma NonObjectRootOneIssue(input: Value)
    requires !IsPlainObject(input)
    ensures SchemaOutcome(input) == Invalid([RootIssue]) && RootIssue.path == ""
  {
  }

  /** No short-circuit: for a plain-object root the issues are those of `schemaFile`,
      `defaultExpectedData`, `database` and `spalidate`, each checked whatever the
      others found, in that order; the result is valid exactly when there are none. */
  lemma EveryFieldChecked(input: Value)
    requires IsPlainObject(input)
    ensures SchemaOutcome(input).Valid? <==> RootIssues(input) == []
    ensures SchemaOutcome(input).Invalid? ==> SchemaOutcome(input).issues == RootIssues(input)
  {
  }

  /** On success the data holds the `schemaFile` string as written, the `database`
      record of the three strings as written, and `defaultExpectedData`/`spalidate`
      only when they were given. */
  lemma ValidConfigContents(input: Value)
    requires SchemaOutcome(input).Valid?
    ensures var c := SchemaOutcome(input).data;
      && IsPlainObject(input)
      && Field(input, "schemaFile").Str? && !IsBlank(Field(input, "schemaFile").s)
      && c.schemaFile == Some(Field(input, "schemaFile").s)
      && c.database == DatabaseConfig(
           Field(Field(input, "database"), "projectId").s,
           Field(Field(input, "database"), "instanceId").s,
           Field(Field(input, "database"), "database").s)
      && !IsBlank(c.database.projectId) && !IsBlank(c.database.instanceId) && !IsBlank(c.database.database)
      && (c.defaultExpectedData.Some? <==> Field(input, "defaultExpectedData").Str?)
      && (c.defaultExpectedData.Some? ==> !IsBlank(c.defaultExpectedData.value))
      && (Field(input, "defaultExpectedData").Str? ==>
            c.defaultExpectedData == Some(Field(input, "defaultExpectedData").s))
      && (c.spalidate.Some? <==> Field(input, "spalidate") != Undefined)
      && c.spalidate == SpalidateOutcome(Field(input, "spalidate")).value
      && (c.spalidate.Some? ==>
            var sp := Field(input, "spalidate");
            && c.spalidate.value.command == (if Field(sp, "command").Str? then Some(Field(sp, "command").s) else None)
            && c.spalidate.value.workingDirectory ==
                 (if Field(sp, "workingDirectory").Str? then Some(Field(sp, "workingDirectory").s) else None)
            && c.spalidate.value.timeout.None?)
  {
    var sf := Field(input, "schemaFile");
    var de := Field(input, "defaultExpectedData");
    ReadStringBehaviour(sf, "schemaFile", true);
    ReadStringBehaviour(de, "defaultExpectedData", false);
    DatabaseAcceptedIffNoIssues(Field(input, "database"));
    assert RootIssues(input) == [];
    var sp := Field(input, "spalidate");
    if sp != Undefined {
      SpalidateIssuesInOrder(sp);
      ReadStringBehaviour(Field(sp, "command"), "spalidate.command", false);
      ReadStringBehaviour(Field(sp, "workingDirectory"), "spalidate.workingDirectory", false);
    }
  }
}
