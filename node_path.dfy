/**
 * The part of Node's `path.join` the pinning route relies on. The parts are
 * joined with `/` and the result is normalised segment by segment: empty
 * and `.` segments vanish, and `..` removes the segment before it. Paths
 * here are relative to the working directory.
 */
module NodePath {
  import opened JsValues

  /** The position of the first `/` in `s`, or `|s|` when there is none. */
  function IndexOfSlash(s: string): (k: nat)
    ensures k <= |s|
    ensures k < |s| ==> s[k] == '/'
    ensures forall j :: 0 <= j < k ==> s[j] != '/'
  {
    if s == [] then 0 else if s[0] == '/' then 0 else 1 + IndexOfSlash(s[1..])
  }

  /** In `a + "/" + b` with no `/` in `a`, the first `/` is the one after `a`. */
  lemma IndexOfSlashAfter(a: string, b: string)
    requires '/' !in a
    ensures IndexOfSlash(a + "/" + b) == |a|
  {
    var s := a + "/" + b;
    var k := IndexOfSlash(s);
    assert s[|a|] == '/';
  }

  /** The segments of a path, split at every `/`; `"a//b"` has an empty middle segment. */
  function Segments(p: string): (segs: seq<string>)
    ensures |segs| > 0
    decreases |p|
  {
    var k := IndexOfSlash(p);
    if k == |p| then [p] else [p[..k]] + Segments(p[k + 1..])
  }

  /** A path whose first `/` follows `a` splits into `a` and the segments after it. */
  lemma SegmentsAfter(a: string, b: string)
    requires '/' !in a
    ensures Segments(a + "/" + b) == [a] + Segments(b)
  {
    var p := a + "/" + b;
    IndexOfSlashAfter(a, b);
    assert p[..|a|] == a;
    assert p[|a| + 1..] == b;
  }

  /** One segment applied to the segments resolved so far. */
  function Step(resolved: seq<string>, seg: string): seq<string> {
    if seg == "" || seg == "." then resolved
    else if seg == ".." then
      if |resolved| > 0 && resolved[|resolved| - 1] != ".." then resolved[..|resolved| - 1]
      else resolved + [".."]
    else resolved + [seg]
  }

  /** The segments `segs` applied, left to right, to the segments resolved so far. */
  function Resolve(resolved: seq<string>, segs: seq<string>): seq<string>
    decreases |segs|
  {
    if segs == [] then resolved else Resolve(Step(resolved, segs[0]), segs[1..])
  }

  /** `path.join(...parts)`: the normalised segments joined by `/`, or `.` when none remain. */
  function JoinPath(parts: seq<string>): string {
    var segs := Resolve([], Segments(Join(parts, "/")));
    if segs == [] then "." else Join(segs, "/")
  }

  /** A name that `path.join` keeps as one entry: non-empty, without `/`, and neither `.` nor `..`. */
  predicate PlainName(name: string) {
    name != "" && name != "." && name != ".." && '/' !in name
  }

  /** Joining two plain names leaves them as they are, one inside the other. */
  lemma {:induction false} JoinPlainNames(dir: string, name: string)
    requires PlainName(dir) && PlainName(name)
    ensures JoinPath([dir, name]) == dir + "/" + name
  {
    var p := Join([dir, name], "/");
    assert p == dir + "/" + name;
    SegmentsAfter(dir, name);
    assert IndexOfSlash(name) == |name|;
    assert Segments(name) == [name];
    assert Segments(p) == [dir, name];
    assert Step([], dir) == [dir] && Step([dir], name) == [dir, name];
    assert [dir, name][1..] == [name];
    assert Resolve([], [dir, name]) == Resolve([dir], [name]) == Resolve([dir, name], []);
  }

  /** The segments of `dir/a/<rest>` for plain names `dir` and `a`. */
  lemma SegmentsOfTwo(dir: string, a: string, rest: string)
    requires PlainName(dir) && PlainName(a)
    ensures Segments(Join([dir, a + "/" + rest], "/")) == [dir, a] + Segments(rest)
  {
    assert Join([dir, a + "/" + rest], "/") == dir + "/" + (a + "/" + rest);
    SegmentsAfter(dir, a + "/" + rest);
    SegmentsAfter(a, rest);
  }

  /** The segments of a chain of `..` ending in a plain name. */
  lemma SegmentsOfParents(name: string)
    requires PlainName(name)
    ensures Segments(".." + "/" + name) == ["..", name]
    ensures Segments(".." + "/" + (".." + "/" + name)) == ["..", "..", name]
  {
    SegmentsAfter("..", name);
    SegmentsAfter("..", ".." + "/" + name);
    assert IndexOfSlash(name) == |name|;
  }

  /** A `..` after an entry cancels it: `dir/a/../name` is `dir/name`. */
  lemma {:induction false} JoinParentCancels(dir: string, a: string, name: string)
    requires PlainName(dir) && PlainName(a) && PlainName(name)
    ensures JoinPath([dir, a + "/../" + name]) == dir + "/" + name
  {
    assert a + "/../" + name == a + "/" + (".." + "/" + name);
    SegmentsOfTwo(dir, a, ".." + "/" + name);
    SegmentsOfParents(name);
    var segs := [dir, a, "..", name];
    assert Segments(Join([dir, a + "/../" + name], "/")) == segs;
    ResolveCancel(dir, a, name);
    assert Join([dir, name], "/") == dir + "/" + name;
  }

  /** Resolving `dir`, `a`, `..`, `name` leaves `dir` and `name`. */
  lemma ResolveCancel(dir: string, a: string, name: string)
    requires PlainName(dir) && PlainName(a) && PlainName(name)
    ensures Resolve([], [dir, a, "..", name]) == [dir, name]
  {
    var segs := [dir, a, "..", name];
    assert Step([], dir) == [dir];
    assert Step([dir], a) == [dir, a];
    assert Step([dir, a], "..") == [dir];
    assert Step([dir], name) == [dir, name];
    assert Resolve([], segs) == Resolve([dir], segs[1..]);
    assert Resolve([dir], segs[1..]) == Resolve([dir, a], segs[2..]);
    assert Resolve([dir, a], segs[2..]) == Resolve([dir], segs[3..]);
    assert Resolve([dir], segs[3..]) == Resolve([dir, name], []);
  }

  /** Two `..` after an entry climb out of `dir`: `dir/a/../../name` is `name`. */
  lemma {:induction false} JoinParentEscapes(dir: string, a: string, name: string)
    requires PlainName(dir) && PlainName(a) && PlainName(name)
    ensures JoinPath([dir, a + "/../../" + name]) == name
  {
    assert a + "/../../" + name == a + "/" + (".." + "/" + (".." + "/" + name));
    SegmentsOfTwo(dir, a, ".." + "/" + (".." + "/" + name));
    SegmentsOfParents(name);
    var segs := [dir, a, "..", "..", name];
    assert Segments(Join([dir, a + "/../../" + name], "/")) == segs;
    ResolveEscape(dir, a, name);
  }

  /** Resolving `dir`, `a`, `..`, `..`, `name` leaves `name` alone. */
  lemma ResolveEscape(dir: string, a: string, name: string)
    requires PlainName(dir) && PlainName(a) && PlainName(name)
    ensures Resolve([], [dir, a, "..", "..", name]) == [name]
  {
    var segs := [dir, a, "..", "..", name];
    assert Step([], dir) == [dir];
    assert Step([dir], a) == [dir, a];
    assert Step([dir, a], "..") == [dir];
    assert Step([dir], "..") == [];
    assert Step([], name) == [name];
    assert Resolve([], segs) == Resolve([dir], segs[1..]);
    assert Resolve([dir], segs[1..]) == Resolve([dir, a], segs[2..]);
    assert Resolve([dir, a], segs[2..]) == Resolve([dir], segs[3..]);
    assert Resolve([dir], segs[3..]) == Resolve([], segs[4..]);
    assert Resolve([], segs[4..]) == Resolve([name], []);
  }
}
