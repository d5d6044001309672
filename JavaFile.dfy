/**
 * The path arithmetic of java.io.File on a Unix file system, as far as the
 * launcher and the settings downloader rely on it: normalisation of a path
 * string, `new File(parent, child)`, `getParent()` and `getAbsolutePath()`.
 * Paths are strings; '/' is the only separator.
 */
module JavaFile {

  import opened Wrappers

  /** No two adjacent separators in `p`. */
  predicate NoDoubleSlash(p: string) {
    forall i :: 0 <= i < |p| - 1 ==> !(p[i] == '/' && p[i + 1] == '/')
  }

  /** The form every java.io.File keeps its path in. */
  predicate IsNormal(p: string) {
    NoDoubleSlash(p) && (|p| > 1 ==> p[|p| - 1] != '/')
  }

  /** Collapses every run of '/' into a single '/'. */
  function Collapse(s: string): (r: string)
    ensures |r| <= |s|
    ensures NoDoubleSlash(r)
    ensures |s| > 0 ==> |r| > 0 && r[0] == s[0] && r[|r| - 1] == s[|s| - 1]
  {
    if |s| <= 1 then s
    else if s[0] == '/' && s[1] == '/' then Collapse(s[1..])
    else [s[0]] + Collapse(s[1..])
  }

  /** UnixFileSystem.normalize: collapse runs of '/', drop a trailing '/' unless the path is "/". */
  function Normalize(s: string): (r: string)
    ensures IsNormal(r)
    ensures r == Collapse(s) || r + "/" == Collapse(s)
    ensures r == "" <==> s == ""
  {
    var c := Collapse(s);
    if |c| > 1 && c[|c| - 1] == '/' then c[..|c| - 1] else c
  }

  lemma {:induction false} CollapseKeepsSingleSlashes(s: string)
    requires NoDoubleSlash(s)
    ensures Collapse(s) == s
  {
    if |s| > 1 {
      assert !(s[0] == '/' && s[1] == '/');
      assert NoDoubleSlash(s[1..]) by {
        forall i | 0 <= i < |s[1..]| - 1 ensures !(s[1..][i] == '/' && s[1..][i + 1] == '/') {
          assert s[1..][i] == s[i + 1] && s[1..][i + 1] == s[i + 2];
        }
      }
      CollapseKeepsSingleSlashes(s[1..]);
      assert s == [s[0]] + s[1..];
    }
  }

  /** One separator of a doubled pair is dropped: with CollapseKeepsSingleSlashes this fixes Collapse. */
  lemma {:induction false} CollapseDropsDoubledSlash(a: string, b: string)
    ensures Collapse(a + "//" + b) == Collapse(a + "/" + b)
  {
    var s, t := a + "//" + b, a + "/" + b;
    if a == [] {
      assert s[1..] == t;
    } else {
      assert s[0] == t[0] && s[1] == t[1];
      assert s[1..] == a[1..] + "//" + b && t[1..] == a[1..] + "/" + b;
      CollapseDropsDoubledSlash(a[1..], b);
    }
  }

  /** A path already in normal form is left alone; so normalisation is idempotent. */
  lemma NormalizeFixesNormal(p: string)
    ensures IsNormal(p) ==> Normalize(p) == p
  {
    if IsNormal(p) { CollapseKeepsSingleSlashes(p); }
  }

  /** UnixFileSystem.resolve(parent, child) for a normal parent and child. */
  function Resolve(parent: string, child: string): string {
    if child == "" then parent
    else if child[0] == '/' then (if parent == "/" then child else parent + child)
    else if parent == "/" then parent + child
    else parent + "/" + child
  }

  /**
   * `new File(parent, child)` where `parent` is the path of an existing File
   * object. Java normalises the child first; every child this code passes is
   * a literal already in normal form, which NormalizeFixesNormal shows
   * normalisation leaves alone.
   */
  function Child(parent: string, child: string): (r: string)
    requires IsNormal(child)
    ensures IsNormal(parent) && parent != "" && parent != "/" && child != ""
            ==> r == parent + (if child[0] == '/' then child else "/" + child)
  {
    if parent == "" then Resolve("/", child) else Resolve(parent, child)
  }

  /** A relative name under an ordinary directory: one separator between them, and the result is normal. */
  lemma ChildUnder(parent: string, name: string)
    requires IsNormal(parent) && parent != "" && parent != "/"
    requires name != "" && '/' !in name
    ensures Child(parent, name) == parent + "/" + name
    ensures IsNormal(parent + "/" + name)
  {
    assert IsNormal(name) && name[0] != '/' by {
      assert name[0] in name;
      forall i | 0 <= i < |name| ensures name[i] != '/' {
        assert name[i] in name;
      }
    }
    var p := parent + "/" + name;
    assert parent[|parent| - 1] != '/' by {
      if |parent| == 1 { assert parent == [parent[0]]; }
    }
    forall i | 0 <= i < |p| - 1
      ensures !(p[i] == '/' && p[i + 1] == '/')
    {
      if i < |parent| - 1 {
        assert p[i] == parent[i] && p[i + 1] == parent[i + 1];
      } else if i == |parent| - 1 {
        assert p[i] == parent[i];
      } else if i == |parent| {
        assert p[i + 1] == name[0];
      } else {
        assert p[i + 1] == name[i - |parent|];
      }
    }
    assert p[|p| - 1] == name[|name| - 1];
  }

  /** `new File(String parent, String child)`: the parent string is normalised first. */
  function ChildOfString(parent: string, child: string): string
    requires IsNormal(child)
  {
    Child(Normalize(parent), child)
  }

  /** The index of the last '/' in `p`, or -1. */
  function LastSlash(p: string): (i: int)
    ensures -1 <= i < |p|
    ensures i >= 0 ==> p[i] == '/'
    ensures forall j :: i < j < |p| ==> p[j] != '/'
  {
    if p == [] then -1
    else if p[|p| - 1] == '/' then |p| - 1
    else LastSlash(p[..|p| - 1])
  }

  /**
   * File.getParentFile(): None where Java returns null (a path with no
   * parent); otherwise the text before the last separator, or "/" when that
   * separator is the leading one.
   */
  function Parent(p: string): (r: Option<string>)
    ensures r.None? <==> p == "/" || forall j :: 0 <= j < |p| ==> p[j] != '/'
    ensures r.Some? ==> r.value <= p && |r.value| < |p|
    ensures r.Some? ==> r.value == if LastSlash(p) > 0 then p[..LastSlash(p)] else "/"
  {
    var prefix := if |p| > 0 && p[0] == '/' then 1 else 0;
    var i := LastSlash(p);
    if i < prefix then
      (if prefix > 0 && |p| > prefix then Some(p[..prefix]) else None)
    else Some(p[..i])
  }

  /** File.getAbsolutePath(): a relative path is resolved against the "user.dir" directory. */
  function AbsolutePath(userDir: string, p: string): (r: string)
    ensures |p| > 0 && p[0] == '/' ==> r == p
    ensures p == "" ==> r == userDir
    ensures p != "" && p[0] != '/' ==> r == (if userDir == "/" then "/" else userDir + "/") + p
    ensures userDir != "" && userDir[0] == '/' ==> r != "" && r[0] == '/'
  {
    if |p| > 0 && p[0] == '/' then p else Resolve(userDir, p)
  }

  /** The parent of a name placed under an ordinary directory is that directory again. */
  lemma ParentOfChild(dir: string, name: string)
    requires IsNormal(dir) && dir != "" && dir != "/"
    requires name != "" && '/' !in name
    ensures Parent(Child(dir, name)) == Some(dir)
  {
    ChildUnder(dir, name);
    var p := dir + "/" + name;
    var i := LastSlash(p);
    assert p[|dir|] == '/';
    assert i == |dir|;
    assert p[..i] == dir;
  }
}
