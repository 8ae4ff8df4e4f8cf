/**
 * Paths as sequences of components. A filename written in a directive may
 * contain '/', so joining it to a directory appends its components; the
 * parent of a path drops its last component; `string()` writes the
 * components back separated by '/'.
 */
module Paths {
  type Path = seq<string>

  predicate ValidComponent(c: string) {
    c != [] && '/' !in c
  }

  predicate ValidPath(p: Path) {
    forall i :: 0 <= i < |p| ==> ValidComponent(p[i])
  }

  /** Length of the text before the first '/' (all of it when there is none). */
  function FirstSlash(s: string): (k: nat)
    ensures k <= |s| && '/' !in s[..k]
    ensures k < |s| ==> s[k] == '/'
  {
    if s == [] || s[0] == '/' then 0 else 1 + FirstSlash(s[1..])
  }

  /** The components of a relative filename; repeated separators give no empty component. */
  function Components(name: string): Path
    decreases |name|
  {
    if name == [] then []
    else
      var k := FirstSlash(name);
      var rest := if k < |name| then Components(name[k + 1..]) else [];
      if k == 0 then rest else [name[..k]] + rest
  }

  /** `dir / filename` */
  function Join(dir: Path, name: string): Path {
    dir + Components(name)
  }

  /** `parent_path()` */
  function Parent(p: Path): (r: Path)
    ensures p != [] ==> p == r + [p[|p| - 1]]
    ensures p == [] ==> r == []
  {
    if p == [] then [] else p[..|p| - 1]
  }

  /** `string()`: the components separated by '/'. */
  function PathString(p: Path): string {
    if p == [] then ""
    else if |p| == 1 then p[0]
    else p[0] + "/" + PathString(p[1..])
  }

  /** Splitting never yields an empty component or one that holds a '/'. */
  lemma {:induction false} ComponentsValid(name: string)
    ensures ValidPath(Components(name))
    decreases |name|
  {
    if name != [] {
      var k := FirstSlash(name);
      if k < |name| {
        ComponentsValid(name[k + 1..]);
      }
    }
  }

  /** Joining a well-formed directory and a filename gives a well-formed path below that directory. */
  lemma {:induction false} JoinValid(dir: Path, name: string)
    requires ValidPath(dir)
    ensures var r := Join(dir, name); |r| >= |dir| && r[..|dir|] == dir && ValidPath(r)
  {
    ComponentsValid(name);
  }

  lemma {:induction false} FirstSlashAt(a: string, b: string)
    requires '/' !in a
    ensures FirstSlash(a + "/" + b) == |a|
    ensures FirstSlash(a) == |a|
  {
    if a != [] {
      assert (a + "/" + b)[1..] == a[1..] + "/" + b;
      FirstSlashAt(a[1..], b);
    } else {
      assert (a + "/" + b)[0] == '/';
    }
  }

  /** A filename without '/' is a single component. */
  lemma {:induction false} SingleComponent(c: string)
    requires ValidComponent(c)
    ensures Components(c) == [c]
  {
    FirstSlashAt(c, "");
    assert c[..|c|] == c;
  }

  /** A filename is split at its first '/'. */
  lemma {:induction false} ComponentsOfSlash(a: string, b: string)
    requires ValidComponent(a)
    ensures Components(a + "/" + b) == [a] + Components(b)
  {
    var s := a + "/" + b;
    FirstSlashAt(a, b);
    assert s[..|a|] == a;
    assert s[|a| + 1..] == b;
  }

  lemma {:induction false} TwoComponents(a: string, b: string)
    requires ValidComponent(a) && ValidComponent(b)
    ensures Components(a + "/" + b) == [a, b]
  {
    ComponentsOfSlash(a, b);
    SingleComponent(b);
  }

  /** Writing a path and splitting it again gives the same components. */
  lemma {:induction false} ComponentsOfPathString(p: Path)
    requires ValidPath(p)
    ensures Components(PathString(p)) == p
  {
    if |p| == 1 {
      SingleComponent(p[0]);
    } else if |p| > 1 {
      ComponentsOfSlash(p[0], PathString(p[1..]));
      ComponentsOfPathString(p[1..]);
      assert [p[0]] + p[1..] == p;
    }
  }

  /** The context of an included file is the directory it was found in. */
  lemma {:induction false} ParentOfJoin(dir: Path, name: string)
    requires Components(name) != []
    ensures var c := Components(name); Parent(Join(dir, name)) == dir + c[..|c| - 1]
  {
    var c := Components(name);
    assert (dir + c)[..|dir + c| - 1] == dir + c[..|c| - 1];
  }
}
