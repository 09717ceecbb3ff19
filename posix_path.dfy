/** Node's `path.posix` operations the core relies on — `resolve`, `relative`,
    `dirname` — written over the list of `/`-separated segments of a path. */
module PosixPath {
  import opened JsString

  predicate IsAbsolute(p: string) {
    |p| > 0 && p[0] == '/'
  }

  /** The process's working directory, which the operating system always reports absolute. */
  type AbsolutePath = p: string | IsAbsolute(p) witness "/"

  /** A segment that survives normalisation: not empty, not `.`, not `..`, no separator. */
  predicate IsName(s: string) {
    s != "" && s != "." && s != ".." && '/' !in s
  }

  predicate AllNames(segs: seq<string>) {
    forall i :: 0 <= i < |segs| ==> IsName(segs[i])
  }

  predicate NoSeparator(segs: seq<string>) {
    forall i :: 0 <= i < |segs| ==> '/' !in segs[i]
  }

  /** `p.split('/')` */
  function Split(p: string): (r: seq<string>)
    ensures |r| >= 1
    ensures NoSeparator(r)
    decreases |p|
  {
    if p == [] then [""]
    else if p[0] == '/' then [""] + Split(p[1..])
    else
      var rest := Split(p[1..]);
      [[p[0]] + rest[0]] + rest[1..]
  }

  /** `segs.join('/')` */
  function JoinSegments(segs: seq<string>): string
    decreases |segs|
  {
    if segs == [] then ""
    else if |segs| == 1 then segs[0]
    else segs[0] + "/" + JoinSegments(segs[1..])
  }

  /** One step of Node's `normalizeString` for an absolute path: `..` removes the
      previous segment (and is dropped at the root), empty and `.` segments vanish. */
  function Step(acc: seq<string>, seg: string): seq<string> {
    if seg == "" || seg == "." then acc
    else if seg == ".." then (if acc == [] then acc else acc[..|acc| - 1])
    else acc + [seg]
  }

  /** The segments of an absolute path after normalisation, left to right. */
  function Normalize(segs: seq<string>): (r: seq<string>)
    requires NoSeparator(segs)
    ensures AllNames(r)
    decreases |segs|
  {
    if segs == [] then []
    else Step(Normalize(segs[..|segs| - 1]), segs[|segs| - 1])
  }

  /** The string `path.resolve` normalises: the arguments from the right, joined with
      `/`, up to and including the first absolute one, else prefixed with the working
      directory; empty arguments are skipped. */
  function Anchor(cwd: AbsolutePath, paths: seq<string>): (r: string)
    ensures IsAbsolute(r)
    decreases |paths|
  {
    if paths == [] then cwd
    else
      var last := paths[|paths| - 1];
      if last == "" then Anchor(cwd, paths[..|paths| - 1])
      else if IsAbsolute(last) then last
      else Anchor(cwd, paths[..|paths| - 1]) + "/" + last
  }

  /** The segments of `path.resolve(...paths)`. */
  function ResolveSegments(cwd: AbsolutePath, paths: seq<string>): (r: seq<string>)
    ensures AllNames(r)
  {
    Normalize(Split(Anchor(cwd, paths)))
  }

  /** The absolute path with the given segments. */
  function Render(segs: seq<string>): (r: string)
    ensures IsAbsolute(r)
  {
    "/" + JoinSegments(segs)
  }

  /** `path.resolve(...paths)` */
  function Resolve(cwd: AbsolutePath, paths: seq<string>): AbsolutePath {
    Render(ResolveSegments(cwd, paths))
  }

  /** The number of leading segments two paths share. */
  function CommonPrefixLength(a: seq<string>, b: seq<string>): (n: nat)
    ensures n <= |a| && n <= |b| && a[..n] == b[..n]
    ensures n < |a| && n < |b| ==> a[n] != b[n]
    decreases |a|
  {
    if a == [] || b == [] || a[0] != b[0] then 0
    else 1 + CommonPrefixLength(a[1..], b[1..])
  }

  function Ups(k: nat): (r: seq<string>)
    ensures |r| == k && forall i :: 0 <= i < k ==> r[i] == ".."
  {
    seq(k, _ => "..")
  }

  /** `path.relative(from, to)` on resolved segments: one `..` for every segment of
      `from` below the common prefix, then the rest of `to`. */
  function RelativeSegments(from: seq<string>, to: seq<string>): string {
    var c := CommonPrefixLength(from, to);
    JoinSegments(Ups(|from| - c) + to[c..])
  }

  /** `path.relative(from, to)`: both arguments are resolved first. */
  function Relative(cwd: AbsolutePath, from: string, to: string): string {
    if from == to then ""
    else RelativeSegments(ResolveSegments(cwd, [from]), ResolveSegments(cwd, [to]))
  }

  /** Index of the separator `path.dirname` cuts at: scanning down from index `i`,
      the first `/` that has a non-separator after it; -1 if there is none at index 1 or above. */
  function DirnameEnd(p: string, i: int, matchedSlash: bool): (end: int)
    requires i < |p|
    ensures end == -1 || (1 <= end <= i && p[end] == '/')
    decreases i
  {
    if i < 1 then -1
    else if p[i] == '/' then (if !matchedSlash then i else DirnameEnd(p, i - 1, true))
    else DirnameEnd(p, i - 1, false)
  }

  /** `path.dirname(p)` */
  function Dirname(p: string): string {
    if p == [] then "."
    else
      var end := DirnameEnd(p, |p| - 1, true);
      if end == -1 then (if p[0] == '/' then "/" else ".")
      else if p[0] == '/' && end == 1 then "//"
      else p[..end]
  }

  // ---------------------------------------------------------------------------
  // Properties

  lemma {:induction false} SplitName(a: string)
    requires '/' !in a
    ensures Split(a) == [a]
    decreases |a|
  {
    if a != [] {
      assert '/' !in a[1..] by {
        forall c | c in a[1..] ensures c != '/' { assert c in a; }
      }
      SplitName(a[1..]);
      assert [a[0]] + a[1..] == a;
    }
  }

  lemma {:induction false} SplitAfterName(a: string, rest: string)
    requires '/' !in a
    ensures Split(a + "/" + rest) == [a] + Split(rest)
    decreases |a|
  {
    if a == [] {
      assert a + "/" + rest == "/" + rest;
      assert ("/" + rest)[1..] == rest;
    } else {
      assert '/' !in a[1..] by {
        forall c | c in a[1..] ensures c != '/' { assert c in a; }
      }
      SplitAfterName(a[1..], rest);
      assert (a + "/" + rest)[1..] == a[1..] + "/" + rest;
      assert [a[0]] + a[1..] == a;
    }
  }

  /** Splitting a joined list of separator-free, non-empty-list segments gives them back. */
  lemma {:induction false} SplitJoin(segs: seq<string>)
    requires |segs| >= 1 && NoSeparator(segs)
    ensures Split(JoinSegments(segs)) == segs
    decreases |segs|
  {
    if |segs| == 1 {
      SplitName(segs[0]);
    } else {
      SplitJoin(segs[1..]);
      SplitAfterName(segs[0], JoinSegments(segs[1..]));
      assert [segs[0]] + segs[1..] == segs;
    }
  }

  /** Normalising after names only appends those names. */
  lemma {:induction false} NormalizeAppendNames(prefix: seq<string>, names: seq<string>)
    requires NoSeparator(prefix) && AllNames(names)
    ensures NoSeparator(prefix + names)
    ensures Normalize(prefix + names) == Normalize(prefix) + names
    decreases |names|
  {
    assert NoSeparator(prefix + names) by {
      forall i | 0 <= i < |prefix + names| ensures '/' !in (prefix + names)[i] {
        if i >= |prefix| { assert (prefix + names)[i] == names[i - |prefix|]; }
      }
    }
    if names != [] {
      var init := names[..|names| - 1];
      NormalizeAppendNames(prefix, init);
      assert (prefix + names)[..|prefix + names| - 1] == prefix + init;
      var last := names[|names| - 1];
      assert (prefix + names)[|prefix + names| - 1] == last;
      assert IsName(last);
      assert Normalize(prefix + names) == Step(Normalize(prefix + init), last);
      assert Normalize(prefix) + init + [last] == Normalize(prefix) + names;
    } else {
      assert prefix + names == prefix;
    }
  }

  /** The segments of a rendered path are the ones it was rendered from. */
  lemma RenderedSegments(segs: seq<string>)
    requires AllNames(segs)
    ensures Normalize(Split(Render(segs))) == segs
  {
    var r := Render(segs);
    assert r[1..] == JoinSegments(segs);
    if segs == [] {
      assert Split(r) == [""] + [""];
      assert Normalize([""] + [""]) == [];
    } else {
      assert NoSeparator(segs);
      SplitJoin(segs);
      assert Split(r) == [""] + segs;
      NormalizeAppendNames([""], segs);
      assert Normalize([""]) == Step(Normalize([]), "");
    }
  }

  /** `path.resolve` leaves a resolved path as it is: resolving is idempotent. */
  lemma ResolveRendered(cwd: AbsolutePath, segs: seq<string>)
    requires AllNames(segs)
    ensures ResolveSegments(cwd, [Render(segs)]) == segs
    ensures Resolve(cwd, [Render(segs)]) == Render(segs)
  {
    assert Anchor(cwd, [Render(segs)]) == Render(segs);
    RenderedSegments(segs);
  }

  lemma ResolveIdempotent(cwd: AbsolutePath, p: string)
    ensures Resolve(cwd, [Resolve(cwd, [p])]) == Resolve(cwd, [p])
  {
    ResolveRendered(cwd, ResolveSegments(cwd, [p]));
  }

  /** Two lists of names render to the same path only if they are equal. */
  lemma {:induction false} JoinInjective(a: seq<string>, b: seq<string>)
    requires AllNames(a) && AllNames(b)
    requires JoinSegments(a) == JoinSegments(b)
    ensures a == b
  {
    if a != [] && b != [] {
      assert NoSeparator(a) && NoSeparator(b);
      SplitJoin(a);
      SplitJoin(b);
    }
  }

  lemma RenderInjective(a: seq<string>, b: seq<string>)
    requires AllNames(a) && AllNames(b)
    ensures Render(a) == Render(b) <==> a == b
  {
    if Render(a) == Render(b) {
      assert JoinSegments(a) == Render(a)[1..];
      assert JoinSegments(b) == Render(b)[1..];
      JoinInjective(a, b);
    }
  }

  /** A join of names starts with `..` exactly when its first segment does. */
  lemma JoinStartsWithDots(segs: seq<string>)
    requires forall i :: 0 <= i < |segs| ==> segs[i] != ""
    ensures StartsWith(JoinSegments(segs), "..") <==> |segs| > 0 && StartsWith(segs[0], "..")
    ensures JoinSegments(segs) == "" <==> segs == []
  {
    if |segs| > 1 {
      var j := JoinSegments(segs);
      assert j == segs[0] + "/" + JoinSegments(segs[1..]);
      if |segs[0]| >= 2 {
        assert j[..2] == segs[0][..2];
      } else {
        assert j[1] == '/';
      }
    }
  }

  /** `b` starts with `a` */
  predicate IsPrefix(a: seq<string>, b: seq<string>) {
    |a| <= |b| && b[..|a|] == a
  }

  /** The relative path from `base` to `p` is empty exactly when they are the same
      path, and starts with `..` exactly when `p` is not below `base` or its first
      segment below `base` itself starts with `..`. */
  lemma RelativeShape(base: seq<string>, p: seq<string>)
    requires AllNames(base) && AllNames(p)
    ensures RelativeSegments(base, p) == "" <==> base == p
    ensures StartsWith(RelativeSegments(base, p), "..") <==>
              !IsPrefix(base, p) || (|p| > |base| && StartsWith(p[|base|], ".."))
  {
    var c := CommonPrefixLength(base, p);
    var parts := Ups(|base| - c) + p[c..];
    forall i | 0 <= i < |parts| ensures parts[i] != "" {
      if i >= |base| - c { assert parts[i] == p[c + i - (|base| - c)]; }
    }
    JoinStartsWithDots(parts);
    if c < |base| {
      assert parts[0] == "..";
      assert !IsPrefix(base, p);
    } else {
      assert IsPrefix(base, p);
      if |p| > |base| {
        assert parts[0] == p[|base|];
      } else {
        assert p == p[..|base|];
      }
    }
  }

  lemma {:induction false} DirnameEndInName(p: string, sep: nat, i: nat)
    requires sep < i < |p| && p[sep] == '/'
    requires forall j :: sep < j < |p| ==> p[j] != '/'
    ensures DirnameEnd(p, i, false) == (if sep >= 1 then sep else -1)
    decreases i
  {
    if i - 1 > sep {
      DirnameEndInName(p, sep, i - 1);
    }
  }

  /** The directory of `head + "/" + last`, for a name `last` and a `head` that is
      empty or an absolute path of at least one segment, is `head` (or the root). */
  lemma DirnameAtLastSlash(head: string, last: string)
    requires last != "" && '/' !in last
    requires head == "" || (|head| >= 2 && head[0] == '/')
    ensures Dirname(head + "/" + last) == if head == "" then "/" else head
  {
    var p := head + "/" + last;
    var sep := |head|;
    assert p[sep] == '/';
    forall j | sep < j < |p| ensures p[j] != '/' {
      assert p[j] == last[j - sep - 1];
    }
    assert p[|p| - 1] == last[|last| - 1];
    if |p| - 1 > sep + 1 {
      DirnameEndInName(p, sep, |p| - 2);
    }
    assert DirnameEnd(p, |p| - 1, true) == DirnameEnd(p, |p| - 2, false);
    if head != "" {
      assert DirnameEnd(p, |p| - 1, true) == sep;
      assert p[0] == head[0];
      assert p[..sep] == head;
    }
  }

  /** The directory of a resolved path is the path without its last segment: the
      configuration directory of a resolved configuration file is its parent. */
  lemma DirnameOfRendered(segs: seq<string>)
    requires AllNames(segs) && |segs| >= 1
    ensures Dirname(Render(segs)) == Render(segs[..|segs| - 1])
  {
    var init, last := segs[..|segs| - 1], segs[|segs| - 1];
    assert segs == init + [last];
    assert IsName(last);
    if init == [] {
      assert Render(segs) == "" + "/" + last;
      DirnameAtLastSlash("", last);
    } else {
      JoinAppend(init, last);
      assert |JoinSegments(init)| >= 1 by {
        assert IsName(init[0]);
        JoinStartsWithDots(init);
      }
      assert Render(segs) == Render(init) + "/" + last;
      DirnameAtLastSlash(Render(init), last);
    }
  }

  lemma {:induction false} JoinAppend(segs: seq<string>, last: string)
    requires segs != []
    ensures JoinSegments(segs + [last]) == JoinSegments(segs) + "/" + last
    decreases |segs|
  {
    if |segs| > 1 {
      JoinAppend(segs[1..], last);
      assert (segs + [last])[1..] == segs[1..] + [last];
    } else {
      assert (segs + [last])[1..] == [last];
    }
  }

  /** Splitting at a separator splits the two sides apart. */
  lemma {:induction false} SplitAppend(x: string, y: string)
    ensures Split(x + "/" + y) == Split(x) + Split(y)
    decreases |x|
  {
    if x == [] {
      var s := x + "/" + y;
      assert s[0] == '/' && s[1..] == y;
    } else {
      assert (x + "/" + y)[1..] == x[1..] + "/" + y;
      SplitAppend(x[1..], y);
      SplitAppendStep(x, y);
    }
  }

  /** One step of `SplitAppend`: from the split of the tail to the split of the whole. */
  lemma SplitAppendStep(x: string, y: string)
    requires x != []
    requires Split(x[1..] + "/" + y) == Split(x[1..]) + Split(y)
    ensures Split(x + "/" + y) == Split(x) + Split(y)
  {
    var s := x + "/" + y;
    assert s[0] == x[0] && s[1..] == x[1..] + "/" + y;
    if x[0] == '/' {
      SplitSlashStep(x, s, Split(y));
    } else {
      SplitCharStep(x, s, Split(y));
    }
  }

  lemma SplitSlashStep(x: string, s: string, ys: seq<string>)
    requires x != [] && s != [] && x[0] == '/' && s[0] == '/'
    requires Split(s[1..]) == Split(x[1..]) + ys
    ensures Split(s) == Split(x) + ys
  {
    assert [""] + (Split(x[1..]) + ys) == ([""] + Split(x[1..])) + ys;
  }

  lemma SplitCharStep(x: string, s: string, ys: seq<string>)
    requires x != [] && s != [] && x[0] != '/' && s[0] == x[0]
    requires Split(s[1..]) == Split(x[1..]) + ys
    ensures Split(s) == Split(x) + ys
  {
    var xs := Split(x[1..]);
    assert Split(s) == [[x[0]] + Split(s[1..])[0]] + Split(s[1..])[1..];
    assert Split(x) == [[x[0]] + xs[0]] + xs[1..];
    FirstJoined([x[0]], xs, ys);
  }

  /** Gluing a prefix onto the first element commutes with appending more elements. */
  lemma FirstJoined(c: string, xs: seq<string>, ys: seq<string>)
    requires |xs| >= 1
    ensures [c + (xs + ys)[0]] + (xs + ys)[1..] == ([c + xs[0]] + xs[1..]) + ys
  {
    assert (xs + ys)[1..] == xs[1..] + ys;
  }

  /** Resolving a relative path made of names below a directory appends those names
      to the directory's segments. */
  lemma ResolveChild(cwd: AbsolutePath, dir: string, names: seq<string>)
    requires |names| >= 1 && AllNames(names)
    ensures ResolveSegments(cwd, [dir, JoinSegments(names)]) == ResolveSegments(cwd, [dir]) + names
  {
    var j := JoinSegments(names);
    var a := Anchor(cwd, [dir]);
    JoinIsRelative(names);
    AnchorChild(cwd, dir, j);
    SplitAppend(a, j);
    assert NoSeparator(names);
    SplitJoin(names);
    NormalizeAppendNames(Split(a), names);
  }

  lemma JoinIsRelative(names: seq<string>)
    requires |names| >= 1 && AllNames(names)
    ensures JoinSegments(names) != "" && !IsAbsolute(JoinSegments(names))
  {
    var j := JoinSegments(names);
    JoinStartsWithDots(names);
    if |names| > 1 {
      assert j == names[0] + "/" + JoinSegments(names[1..]);
    }
    assert j[0] == names[0][0];
  }

  lemma AnchorChild(cwd: AbsolutePath, dir: string, j: string)
    requires j != "" && !IsAbsolute(j)
    ensures Anchor(cwd, [dir, j]) == Anchor(cwd, [dir]) + "/" + j
  {
    assert [dir, j][..1] == [dir];
  }

  lemma AllNamesAppend(a: seq<string>, b: seq<string>)
    requires AllNames(a) && AllNames(b)
    ensures AllNames(a + b)
  {
    forall i | 0 <= i < |a + b| ensures IsName((a + b)[i]) {
      if i >= |a| { assert (a + b)[i] == b[i - |a|]; }
    }
  }
}
