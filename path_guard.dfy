/** The path guard of `src/path-utils.ts`: resolve a path and refuse it when its form
    relative to a base directory starts with `..`. */
module PathGuard {
  import opened Wrappers
  import opened JsString
  import opened PosixPath

  /** The data of the error `ensureWithinBase` throws: the resolved path and the resolved base. */
  datatype Escape = Escape(resolved: string, base: string)

  /** `ensureWithinBase(value, { baseDir })`; `cwd` is the process's working directory,
      against which both paths are resolved. */
  function EnsureWithinBase(cwd: AbsolutePath, value: string, baseDir: string): (r: Result<string, Escape>)
    ensures r.Success? ==> r.value == Resolve(cwd, [value])
    ensures r.Failure? ==> r.error == Escape(Resolve(cwd, [value]), Resolve(cwd, [baseDir]))
  {
    var resolved := Resolve(cwd, [value]);
    var normalizedBase := Resolve(cwd, [baseDir]);
    var relative := Relative(cwd, normalizedBase, resolved);
    if relative != "" && (StartsWith(relative, "..") || StartsWith(relative, "../")) then
      Failure(Escape(resolved, normalizedBase))
    else
      Success(resolved)
  }

  /** What the guard accepts, on resolved segments: `p` is `base` itself, or lies below
      it and its first segment below `base` does not begin with `..`. */
  predicate Accepted(base: seq<string>, p: seq<string>) {
    IsPrefix(base, p) && (|p| == |base| || !StartsWith(p[|base|], ".."))
  }

  /** The guard, stated whole: it returns the resolved path exactly when `Accepted`
      holds of the resolved segments, and otherwise fails naming both resolved paths. */
  lemma EnsureWithinBaseIff(cwd: AbsolutePath, value: string, baseDir: string)
    ensures var b, v := ResolveSegments(cwd, [baseDir]), ResolveSegments(cwd, [value]);
      EnsureWithinBase(cwd, value, baseDir) ==
        if Accepted(b, v) then Success(Render(v)) else Failure(Escape(Render(v), Render(b)))
  {
    var b, v := ResolveSegments(cwd, [baseDir]), ResolveSegments(cwd, [value]);
    RenderInjective(b, v);
    ResolveRendered(cwd, b);
    ResolveRendered(cwd, v);
    RelativeShape(b, v);
    if Render(b) != Render(v) {
      assert Relative(cwd, Render(b), Render(v)) == RelativeSegments(b, v);
    }
  }

  /** A returned path is `resolve(value)`, and it lies at or below the resolved base. */
  lemma AcceptedLiesWithinBase(cwd: AbsolutePath, value: string, baseDir: string)
    requires EnsureWithinBase(cwd, value, baseDir).Success?
    ensures EnsureWithinBase(cwd, value, baseDir).value == Resolve(cwd, [value])
    ensures IsPrefix(ResolveSegments(cwd, [baseDir]), ResolveSegments(cwd, [value]))
  {
    EnsureWithinBaseIff(cwd, value, baseDir);
  }

  /** A path that does not lie at or below the base (`base/../../etc/passwd`) is refused. */
  lemma EscapingPathRejected(cwd: AbsolutePath, value: string, baseDir: string)
    requires !IsPrefix(ResolveSegments(cwd, [baseDir]), ResolveSegments(cwd, [value]))
    ensures EnsureWithinBase(cwd, value, baseDir) ==
              Failure(Escape(Resolve(cwd, [value]), Resolve(cwd, [baseDir])))
  {
    EnsureWithinBaseIff(cwd, value, baseDir);
  }

  /** The base itself is accepted: its relative form is empty. */
  lemma BaseAccepted(cwd: AbsolutePath, value: string, baseDir: string)
    requires ResolveSegments(cwd, [value]) == ResolveSegments(cwd, [baseDir])
    ensures EnsureWithinBase(cwd, value, baseDir) == Success(Resolve(cwd, [baseDir]))
  {
    EnsureWithinBaseIff(cwd, value, baseDir);
  }

  /** The string-prefix quirk: an entry below the base whose name merely begins with
      `..` (`base/..cache/x`) is refused although it lies inside the base. */
  lemma DotDotNamedChildRejected(cwd: AbsolutePath, base: seq<string>, name: string, rest: seq<string>)
    requires AllNames(base) && IsName(name) && AllNames(rest)
    requires StartsWith(name, "..")
    ensures IsPrefix(base, base + [name] + rest)
    ensures EnsureWithinBase(cwd, Render(base + [name] + rest), Render(base)).Failure?
  {
    var p := base + [name] + rest;
    assert AllNames(p) by {
      forall i | 0 <= i < |p| ensures IsName(p[i]) {
        if i < |base| { assert p[i] == base[i]; }
        else if i == |base| { assert p[i] == name; }
        else { assert p[i] == rest[i - |base| - 1]; }
      }
    }
    assert p[..|base|] == base;
    assert p[|base|] == name;
    ResolveRendered(cwd, p);
    ResolveRendered(cwd, base);
    EnsureWithinBaseIff(cwd, Render(p), Render(base));
  }

  /** Guarding a guarded path returns it unchanged. */
  lemma EnsureWithinBaseIdempotent(cwd: AbsolutePath, value: string, baseDir: string)
    requires EnsureWithinBase(cwd, value, baseDir).Success?
    ensures var r := EnsureWithinBase(cwd, value, baseDir).value;
      EnsureWithinBase(cwd, r, baseDir) == Success(r)
  {
    var v := ResolveSegments(cwd, [value]);
    EnsureWithinBaseIff(cwd, value, baseDir);
    ResolveRendered(cwd, v);
    EnsureWithinBaseIff(cwd, Render(v), baseDir);
  }

  /** A relative path of names below the base, whose first name does not begin with
      `..`, is accepted, and is the base's segments followed by those names. */
  lemma ChildOfBaseAccepted(cwd: AbsolutePath, baseDir: string, names: seq<string>)
    requires |names| >= 1 && AllNames(names) && !StartsWith(names[0], "..")
    ensures var p := Resolve(cwd, [baseDir, JoinSegments(names)]);
      && ResolveSegments(cwd, [p]) == ResolveSegments(cwd, [baseDir]) + names
      && EnsureWithinBase(cwd, p, baseDir) == Success(p)
  {
    var b := ResolveSegments(cwd, [baseDir]);
    var v := b + names;
    ResolveChild(cwd, baseDir, names);
    AllNamesAppend(b, names);
    ResolveRendered(cwd, v);
    assert v[..|b|] == b && v[|b|] == names[0];
    EnsureWithinBaseIff(cwd, Render(v), baseDir);
  }
}
