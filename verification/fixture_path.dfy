/** The name a fixture's tests carry: `parse_html5lib_dat_file` records `str(Path(path))`
    (src/html5lib_tests_bench/html5lib_dat.py), not the path as given. POSIX `pathlib`
    keeps the root (`/`, or exactly `//`), drops empty and `.` segments, and renders the
    empty relative path as `.`. */
module FixturePath {
  import opened Text

  /** The root `posixpath.splitroot` finds: exactly two leading slashes are kept as
      written; one, or three and more, count as one. */
  function PathRoot(path: string): (r: string)
    ensures r <= path
    ensures r == "" <==> |path| == 0 || path[0] != '/'
  {
    if |path| == 0 || path[0] != '/' then ""
    else if |path| >= 2 && path[1] == '/' && !(|path| >= 3 && path[2] == '/') then "//"
    else "/"
  }

  /** A segment `pathlib` keeps: neither empty nor `.`. */
  predicate Kept(seg: string) {
    seg != "" && seg != "."
  }

  /** The kept segments, in order. */
  function PathParts(segments: seq<string>): (r: seq<string>)
    ensures forall i :: 0 <= i < |r| ==> Kept(r[i]) && r[i] in segments
    ensures (forall i :: 0 <= i < |segments| ==> Kept(segments[i])) ==> r == segments
    decreases |segments|
  {
    if |segments| == 0 then []
    else
      var rest := PathParts(segments[1..]);
      assert [segments[0]] + segments[1..] == segments;
      (if Kept(segments[0]) then [segments[0]] else []) + rest
  }

  /** The kept segments of the part of `path` after its root. */
  function Parts(path: string): seq<string> {
    PathParts(SplitOn(path[|PathRoot(path)|..], '/'))
  }

  /** `str(Path(path))` on POSIX. */
  function PathName(path: string): (r: string)
    // never empty: the empty relative path is `.`
    ensures r != ""
    // the root is kept as the source path has it
    ensures PathRoot(r) == PathRoot(path)
  {
    var root := PathRoot(path);
    var parts := Parts(path);
    if root == "" && parts == [] then "."
    else
      PartsNoSep(path);
      RootKept(root, parts);
      root + Join(parts, '/')
  }

  lemma PartsNoSep(path: string)
    ensures NoSep(Parts(path), '/')
  {
    var segments := SplitOn(path[|PathRoot(path)|..], '/');
    SplitOnHasNoSep(path[|PathRoot(path)|..], '/');
    var parts := Parts(path);
    forall i | 0 <= i < |parts| ensures '/' !in parts[i] {
      var j :| 0 <= j < |segments| && segments[j] == parts[i];
    }
  }

  /** A join of kept slash-free segments does not start with a slash. */
  lemma JoinHead(parts: seq<string>)
    requires |parts| > 0 && NoSep(parts, '/') && Kept(parts[0])
    ensures |Join(parts, '/')| > 0 && Join(parts, '/')[0] == parts[0][0] && parts[0][0] != '/'
  {
    JoinCons(parts[0], parts[1..], '/');
    assert [parts[0]] + parts[1..] == parts;
  }

  lemma RootKept(root: string, parts: seq<string>)
    requires root == "" || root == "/" || root == "//"
    requires NoSep(parts, '/') && forall i :: 0 <= i < |parts| ==> Kept(parts[i])
    requires root != "" || parts != []
    ensures PathRoot(root + Join(parts, '/')) == root
  {
    if parts != [] {
      JoinHead(parts);
    }
    RootOfJoin(root, Join(parts, '/'));
  }

  lemma RootOfJoin(root: string, j: string)
    requires root == "" || root == "/" || root == "//"
    requires j == "" || j[0] != '/'
    requires root != "" || j != ""
    ensures PathRoot(root + j) == root
  {
    var r := root + j;
    if j != "" {
      assert r[|root|] == j[0];
    } else {
      assert r == root;
    }
  }

  /** Rendering a rendered name changes nothing, so a test's recorded source file names
      the file it came from in the same form the next time. */
  lemma PathNameIdempotent(path: string)
    ensures PathName(PathName(path)) == PathName(path)
  {
    var r := PathName(path);
    var root := PathRoot(path);
    var parts := Parts(path);
    if root == "" && parts == [] {
      SplitOnNoSep(".", '/');
      assert PathParts(["."]) == [];
    } else {
      PartsNoSep(path);
      assert r == root + Join(parts, '/');
      assert r[|root|..] == Join(parts, '/');
      if parts == [] {
        assert SplitOn("", '/') == [""];
        assert PathParts([""]) == [];
      } else {
        SplitOnJoin(parts, '/');
      }
      assert Parts(r) == parts;
    }
  }

  /** A leading `./` is dropped: `./x.dat` is recorded as `x.dat`. */
  lemma DotSlashDropped(name: string)
    requires '/' !in name && Kept(name)
    ensures PathName("./" + name) == name
  {
    assert "./" + name == "." + ['/'] + name;
    SplitOnPiece(".", '/', name);
    SplitOnNoSep(name, '/');
    assert PathParts([name]) == [name];
    assert PathParts([".", name]) == [name];
    assert Join([name], '/') == name;
  }

  /** A doubled slash between two segments counts as one: `a//b` is recorded as `a/b`. */
  lemma DoubleSlashCollapsed(a: string, b: string)
    requires '/' !in a && '/' !in b && Kept(a) && Kept(b)
    ensures PathName(a + "//" + b) == a + "/" + b
  {
    var p := a + "//" + b;
    assert p[0] == a[0];
    assert p == a + ['/'] + ("" + ['/'] + b);
    SplitOnPiece("", '/', b);
    SplitOnPiece(a, '/', "" + ['/'] + b);
    SplitOnNoSep(b, '/');
    assert SplitOn(p, '/') == [a, "", b];
    assert PathParts([a, "", b]) == [a, b];
    JoinCons(a, [b], '/');
    assert [a] + [b] == [a, b];
  }

  /** A plain file name is recorded as written. */
  lemma PlainFileName(name: string)
    requires '/' !in name && Kept(name)
    ensures PathName(name) == name
  {
    assert name[0] != '/';
    assert name[|PathRoot(name)|..] == name;
    SplitOnNoSep(name, '/');
    assert PathParts([name]) == [name];
  }

  /** The empty path is recorded as `.`. */
  lemma EmptyPathIsDot()
    ensures PathName("") == "."
  {
    assert SplitOn("", '/') == [""];
    assert PathParts([""]) == [];
  }
}
