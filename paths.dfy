/** The `os.path` operations (POSIX flavour) used to name calibration runs and their artefacts. */
module Paths {
  import opened Strings

  /** `s.rfind(c)`: the index of the last `c` in `s`, or -1. */
  function RFind(s: string, c: char): (k: int)
    ensures -1 <= k < |s|
    ensures k >= 0 ==> s[k] == c
    ensures forall j :: k < j < |s| ==> s[j] != c
  {
    if s == [] then -1 else if s[|s| - 1] == c then |s| - 1 else RFind(s[..|s| - 1], c)
  }

  /** `os.path.basename(p)`: the part after the last slash. */
  function Basename(p: string): (r: string)
    ensures |r| <= |p| && r == p[|p| - |r|..]
    ensures forall i :: 0 <= i < |r| ==> r[i] != '/'
    ensures |r| < |p| ==> p[|p| - |r| - 1] == '/'
  {
    p[RFind(p, '/') + 1..]
  }

  predicate AllDots(s: string)
  {
    forall i :: 0 <= i < |s| ==> s[i] == '.'
  }

  /**
   * `os.path.splitext(p)[0]`: `p` without its extension. The extension starts at the last dot
   * of the last path component, unless only dots precede that dot in the component.
   */
  function Stem(p: string): (r: string)
    ensures StartsWith(p, r)
  {
    var sep := RFind(p, '/');
    var dot := RFind(p, '.');
    if dot > sep && !AllDots(p[sep + 1..dot]) then
      PrefixStartsWith(p, dot);
      p[..dot]
    else
      assert p[..|p|] == p;
      p
  }

  lemma PrefixStartsWith(s: string, k: nat)
    requires k <= |s|
    ensures StartsWith(s, s[..k])
  {
  }

  /** `os.path.join(a, b)` for two components. */
  function Join(a: string, b: string): string
  {
    if StartsWith(b, "/") then b
    else if a == [] || EndsWith(a, "/") then a + b
    else a + "/" + b
  }

  /** The last `c` in `a + b` is the last one in `a` when `b` holds none. */
  lemma {:induction false} RFindAppend(a: string, b: string, c: char)
    requires forall i :: 0 <= i < |b| ==> b[i] != c
    ensures RFind(a + b, c) == RFind(a, c)
  {
    if b != [] {
      assert (a + b)[..|a + b| - 1] == a + b[..|b| - 1];
      RFindAppend(a, b[..|b| - 1], c);
    } else {
      assert a + b == a;
    }
  }

  /** Joining a file name onto a directory and taking the basename gives the name back. */
  lemma BasenameJoin(dir: string, name: string)
    requires forall i :: 0 <= i < |name| ==> name[i] != '/'
    ensures Basename(Join(dir, name)) == name
  {
    assert !StartsWith(name, "/") by {
      assert name != [] ==> name[0] != '/';
    }
    if dir == [] || EndsWith(dir, "/") {
      assert Join(dir, name) == dir + name;
      BasenameAfterSlash(dir, name);
    } else {
      assert Join(dir, name) == (dir + "/") + name;
      BasenameAfterSlash(dir + "/", name);
    }
  }

  /** Behind a slash (or nothing), a name without slashes is the basename. */
  lemma BasenameAfterSlash(head: string, name: string)
    requires head == [] || head[|head| - 1] == '/'
    requires forall i :: 0 <= i < |name| ==> name[i] != '/'
    ensures Basename(head + name) == name
  {
    RFindAppend(head, name, '/');
    assert RFind(head, '/') == |head| - 1;
    assert (head + name)[|head|..] == name;
  }

  /** A name `x.e` whose stem part ends in an ordinary character has stem `x`. */
  lemma StemOfExtension(x: string, e: string)
    requires x != [] && x[|x| - 1] != '.' && x[|x| - 1] != '/'
    requires forall i :: 0 <= i < |e| ==> e[i] != '.' && e[i] != '/'
    ensures Stem(x + "." + e) == x
  {
    var p := x + "." + e;
    var sep := LastSlashBeforeExtension(x, e);
    var dot := LastDotIsExtension(x, e);
    assert p[dot - 1] == x[|x| - 1];
    StemAt(p, sep, dot);
    assert p[..dot] == x;
  }

  /** With the last slash at `sep` and the last dot at `dot` after it, the stem ends before the dot. */
  lemma StemAt(p: string, sep: int, dot: int)
    requires sep == RFind(p, '/') && dot == RFind(p, '.')
    requires sep < dot - 1 && p[dot - 1] != '.'
    ensures Stem(p) == p[..dot]
  {
    var component := p[sep + 1..dot];
    assert component[dot - sep - 2] == p[dot - 1];
    NotAllDots(component, dot - sep - 2);
  }

  lemma NotAllDots(s: string, i: int)
    requires 0 <= i < |s| && s[i] != '.'
    ensures !AllDots(s)
  {
  }

  lemma LastSlashBeforeExtension(x: string, e: string) returns (sep: int)
    requires x != [] && x[|x| - 1] != '/'
    requires forall i :: 0 <= i < |e| ==> e[i] != '/'
    ensures sep == RFind(x + "." + e, '/') && sep < |x| - 1
  {
    var tail := "." + e;
    assert x + "." + e == x + tail;
    assert forall i :: 0 <= i < |tail| ==> tail[i] != '/' by {
      assert forall i :: 1 <= i < |tail| ==> tail[i] == e[i - 1];
    }
    RFindAppend(x, tail, '/');
    sep := RFind(x, '/');
  }

  lemma LastDotIsExtension(x: string, e: string) returns (dot: int)
    requires forall i :: 0 <= i < |e| ==> e[i] != '.'
    ensures dot == RFind(x + "." + e, '.') && dot == |x|
  {
    RFindAppend(x + ".", e, '.');
    dot := RFind(x + ".", '.');
  }
}
