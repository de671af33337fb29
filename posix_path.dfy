/** The parts of Python's `posixpath` that child discovery relies on:
    `normpath`, `basename`, `join` and `abspath`, on `/`-separated paths. */
module PosixPath {
  import opened Strings

  /** `os.path.isabs(p)` */
  predicate IsAbs(p: string)
  {
    StartsWith(p, "/")
  }

  /** The leading slashes `normpath` keeps: two exactly when the path
      starts with exactly two, otherwise one for an absolute path. */
  function LeadingSlashes(p: string): string
  {
    if StartsWith(p, "//") && !StartsWith(p, "///") then "//"
    else if StartsWith(p, "/") then "/"
    else ""
  }

  /** The component loop of `normpath`: drop empty and `.` components, let
      `..` remove the component before it, and keep `..` where there is
      nothing to remove in a relative path. */
  function NormComps(comps: seq<string>, rooted: bool): seq<string>
    decreases |comps|
  {
    if comps == [] then []
    else
      var acc := NormComps(comps[..|comps| - 1], rooted);
      var comp := comps[|comps| - 1];
      if comp == "" || comp == "." then acc
      else if comp != ".." || (!rooted && acc == []) || (acc != [] && acc[|acc| - 1] == "..") then acc + [comp]
      else if acc != [] then acc[..|acc| - 1]
      else acc
  }

  /** `os.path.normpath(p)` */
  function NormPath(p: string): string
  {
    if p == "" then "."
    else
      var slashes := LeadingSlashes(p);
      var r := slashes + Join("/", NormComps(Split(p, '/'), slashes != ""));
      if r == "" then "." else r
  }

  /** `os.path.basename(p)`: what follows the last `/`. */
  function Basename(p: string): string
  {
    var pieces := Split(p, '/');
    pieces[|pieces| - 1]
  }

  /** `os.path.join(a, b)` */
  function JoinPath(a: string, b: string): string
  {
    if IsAbs(b) then b
    else if a == "" || a[|a| - 1] == '/' then a + b
    else a + "/" + b
  }

  /** `os.path.abspath(p)` with `cwd` as the working directory. */
  function AbsPath(cwd: string, p: string): string
  {
    NormPath(if IsAbs(p) then p else JoinPath(cwd, p))
  }

  /** A directory entry as `os.listdir` returns it. */
  predicate PlainName(c: string)
  {
    c != "" && c != "." && c != ".." && '/' !in c
  }

  /** A plain last component survives `normpath` as the last component. */
  lemma NormCompsChild(comps: seq<string>, c: string, rooted: bool)
    requires PlainName(c)
    ensures NormComps(comps + [c], rooted) == NormComps(comps, rooted) + [c]
  {
    assert (comps + [c])[..|comps|] == comps;
  }

  /** `normpath` of a path ending in `/` and a plain name ends in that name. */
  lemma NormPathChild(a: string, c: string)
    requires PlainName(c)
    ensures exists s: string, ls: seq<string> ::
              (s == "" || s == "/" || s == "//") &&
              NormPath(a + "/" + c) == s + Join("/", ls + [c])
  {
    var p := a + "/" + c;
    SplitLastPiece(a, '/', c);
    assert p == a + ['/'] + c;
    var slashes := LeadingSlashes(p);
    NormCompsChild(Split(a, '/'), c, slashes != "");
    var ls := NormComps(Split(a, '/'), slashes != "");
    assert NormPath(p) == slashes + Join("/", ls + [c]);
  }

  /** The last component of `s + join(ls + [c])` is `c`. */
  lemma BasenameOfJoined(s: string, ls: seq<string>, c: string)
    requires s == "" || s == "/" || s == "//"
    requires PlainName(c)
    ensures Basename(s + Join("/", ls + [c])) == c
  {
    if ls == [] {
      assert ls + [c] == [c];
      if s == "" {
        assert s + c == c;
        SplitNoSeparator(c, '/');
      } else if s == "/" {
        assert s + c == "" + ['/'] + c;
        SplitLastPiece("", '/', c);
      } else {
        assert s + c == "/" + ['/'] + c;
        SplitLastPiece("/", '/', c);
      }
    } else {
      JoinSnoc("/", ls, c);
      assert s + Join("/", ls + [c]) == (s + Join("/", ls)) + ['/'] + c;
      SplitLastPiece(s + Join("/", ls), '/', c);
    }
  }

  /** The name `basename(normpath(join(root, c)))` of a directory entry `c`
      is `c` itself, whatever the root. */
  lemma ChildBasename(root: string, c: string)
    requires PlainName(c)
    ensures Basename(NormPath(JoinPath(root, c))) == c
  {
    if root == "" {
      BareName(c);
    } else {
      var a := if root[|root| - 1] == '/' then root[..|root| - 1] else root;
      JoinUnder(root, c, a);
      NormPathChild(a, c);
      var s: string, ls: seq<string> :| (s == "" || s == "/" || s == "//") && NormPath(a + "/" + c) == s + Join("/", ls + [c]);
      BasenameOfJoined(s, ls, c);
    }
  }

  /** A plain name joined to the empty root is its own normal form and
      basename. */
  lemma BareName(c: string)
    requires PlainName(c)
    ensures JoinPath("", c) == c && Basename(NormPath(c)) == c
  {
    assert c[0] in c;
    SplitNoSeparator(c, '/');
    assert NormComps([c], false) == [c] by {
      assert [c][..0] == [];
    }
    assert NormPath(c) == c;
  }

  /** Joining a plain name to a non-empty root puts exactly one `/` between
      the root (without its trailing `/`) and the name. */
  lemma JoinUnder(root: string, c: string, a: string)
    requires PlainName(c) && root != ""
    requires a == if root[|root| - 1] == '/' then root[..|root| - 1] else root
    ensures JoinPath(root, c) == a + "/" + c
  {
    assert c[0] in c;
    assert !IsAbs(c);
    if root[|root| - 1] == '/' {
      assert root == a + "/";
    }
  }
}
