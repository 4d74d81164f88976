/** POSIX path handling as the exporter uses it (posixpath.join, basename and
    the root half of splitext), on plain strings: no normalisation, no
    symbolic links, no file system. */
module Paths {
  import opened Strings

  type Path = string

  /** posixpath.basename(p): everything after the last '/'. */
  function Basename(p: Path): string
  {
    p[RFind(p, '/') + 1..]
  }

  /** A basename holds no '/', ends p, and is either all of p or preceded by
      a '/'. */
  lemma BasenameShape(p: Path)
    ensures '/' !in Basename(p)
    ensures |Basename(p)| <= |p| && p == p[..|p| - |Basename(p)|] + Basename(p)
    ensures |Basename(p)| < |p| ==> p[|p| - |Basename(p)| - 1] == '/'
  {
    var b := Basename(p);
    assert p == p[..|p| - |b|] + b;
  }

  /** What posixpath.join puts in front of a relative component: the directory
      itself when it is empty or already ends in '/', else the directory and '/'. */
  function Sep(a: Path): (s: Path)
    ensures s == [] || s[|s| - 1] == '/'
  {
    if a == [] || a[|a| - 1] == '/' then a else a + "/"
  }

  /** posixpath.join(a, b) of two components; an absolute b discards a. */
  function Join(a: Path, b: Path): Path
  {
    if |b| > 0 && b[0] == '/' then b
    else if a == [] || a[|a| - 1] == '/' then a + b
    else a + "/" + b
  }

  /** posixpath.splitext(p)[0]: p without its final extension. The extension is
      the part from the last '.' of the last component on, unless only dots
      precede that '.' in the component (".bashrc" has no extension). */
  function SplitextRoot(p: Path): Path
  {
    var sep := RFind(p, '/');
    var dot := RFind(p, '.');
    if sep < dot && exists k :: sep < k < dot && p[k] != '.' then p[..dot] else p
  }

  /** The root is a prefix of p. When it is shorter, what it drops starts with
      a '.' and holds no other '.' and no '/', and the root's last component
      has a character other than '.'. */
  lemma SplitextRootShape(p: Path)
    ensures SplitextRoot(p) <= p
    ensures var root := SplitextRoot(p);
      root != p ==>
        && p[|root|] == '.'
        && (forall k :: |root| < k < |p| ==> p[k] != '.' && p[k] != '/')
        && (exists k :: RFind(p, '/') < k < |root| && p[k] != '.')
  {
  }

  /** Joining a component without '/' onto a directory gives a path whose
      basename is that component and whose rest is the directory's prefix. */
  lemma {:induction false} BasenameOfJoin(a: Path, b: string)
    requires '/' !in b
    ensures Join(a, b) == Sep(a) + b
    ensures Basename(Join(a, b)) == b
  {
    var p := Sep(a) + b;
    var i := RFind(p, '/');
    if Sep(a) == [] {
      assert p == b;
      assert i < 0;
    } else {
      assert p[|Sep(a)| - 1] == '/';
      assert i == |Sep(a)| - 1;
    }
    assert p[i + 1..] == b;
  }

  /** Two joins with '/'-free last components are the same path only when the
      components agree and the directories have the same prefix. */
  lemma JoinInjective(a1: Path, b1: string, a2: Path, b2: string)
    requires '/' !in b1 && '/' !in b2
    requires Join(a1, b1) == Join(a2, b2)
    ensures b1 == b2 && Sep(a1) == Sep(a2)
  {
    BasenameOfJoin(a1, b1);
    BasenameOfJoin(a2, b2);
    assert Sep(a1) == Join(a1, b1)[..|Join(a1, b1)| - |b1|];
  }

  /** A directory named by joining a non-empty, '/'-free component ends in that
      component, so join adds exactly one '/' after it. */
  lemma SepOfJoin(a: Path, b: string)
    requires '/' !in b && b != []
    ensures Sep(Join(a, b)) == Join(a, b) + "/"
  {
    BasenameOfJoin(a, b);
    var p := Join(a, b);
    assert p[|p| - 1] == b[|b| - 1];
    assert b[|b| - 1] in b;
  }

  /** <out>/<split>/<kind> paths are distinct for distinct split names or kinds
      (the six folders of a split export never coincide). */
  lemma {:induction false} NestedJoinInjective(out: Path, s1: string, k1: string, s2: string, k2: string)
    requires '/' !in s1 && '/' !in s2 && '/' !in k1 && '/' !in k2
    requires s1 != [] && s2 != []
    requires Join(Join(out, s1), k1) == Join(Join(out, s2), k2)
    ensures s1 == s2 && k1 == k2
  {
    JoinInjective(Join(out, s1), k1, Join(out, s2), k2);
    SepOfJoin(out, s1);
    SepOfJoin(out, s2);
    var x1, x2 := Join(out, s1), Join(out, s2);
    assert |x1| == |x2|;
    assert x1 == (x1 + "/")[..|x1|];
    assert x2 == (x2 + "/")[..|x2|];
    JoinInjective(out, s1, out, s2);
  }

  /** A basename of the form <stem>.<ext>, with a stem that is not all dots
      and an extension free of '.' and '/', loses exactly ".<ext>": so
      "a.jpg" and "a.png" share the root "a". */
  lemma {:induction false} SplitextDropsExtension(stem: string, ext: string)
    requires '/' !in stem && '/' !in ext && '.' !in ext
    requires exists k :: 0 <= k < |stem| && stem[k] != '.'
    ensures SplitextRoot(stem + "." + ext) == stem
  {
    var p := stem + "." + ext;
    var sep := RFind(p, '/');
    var dot := RFind(p, '.');
    assert sep < 0;
    assert p[|stem|] == '.';
    assert dot == |stem|;
    var k :| 0 <= k < |stem| && stem[k] != '.';
    assert p[k] == stem[k];
    assert p[..dot] == stem;
  }

  /** A name made of one leading '.' and a dot-free rest (".bashrc") has no
      extension: its root is the whole name. */
  lemma {:induction false} SplitextKeepsHiddenName(rest: string)
    requires '/' !in rest && '.' !in rest
    ensures SplitextRoot("." + rest) == "." + rest
  {
    var p := "." + rest;
    var dot := RFind(p, '.');
    assert p[0] == '.';
    assert dot == 0;
  }
}
