/** Loading the fixture files the command line names (`_load_tests`,
    src/html5lib_tests_bench/cli.py): each file is parsed in turn and its tests are
    appended, and a decode error of any file ends the load. */
module Loading {
  import opened Wrappers
  import opened DatParser
  import opened FixturePath
  import opened Decoding

  /** A fixture file: its path and its bytes. */
  datatype Fixture = Fixture(path: string, data: seq<byte>)

  /** The loop of `_load_tests`, for any per-file parser: the tests of every file, file
      after file; the first file that fails aborts the load. */
  function LoadWith(files: seq<Fixture>, parse: Fixture -> Result<seq<DatTest>, DecodeError>): (r: Result<seq<DatTest>, DecodeError>)
    ensures r.Success? <==> forall i :: 0 <= i < |files| ==> parse(files[i]).Success?
    decreases |files|
  {
    if |files| == 0 then Success([])
    else
      match parse(files[0])
      case Failure(e) => Failure(e)
      case Success(first) =>
        match LoadWith(files[1..], parse)
        case Failure(e) => Failure(e)
        case Success(rest) => Success(first + rest)
  }

  /** `parse_html5lib_dat_file` as the per-file parser. */
  function FileParser(codecs: Codecs): Fixture -> Result<seq<DatTest>, DecodeError> {
    (f: Fixture) => ParseFile(f.path, f.data, codecs)
  }

  /** `_load_tests(paths)`. */
  function LoadTests(files: seq<Fixture>, codecs: Codecs): (r: Result<seq<DatTest>, DecodeError>)
    ensures r.Success? <==> forall i :: 0 <= i < |files| ==> ParseFile(files[i].path, files[i].data, codecs).Success?
  {
    var parse := FileParser(codecs);
    assert forall i :: 0 <= i < |files| ==> parse(files[i]) == ParseFile(files[i].path, files[i].data, codecs);
    LoadWith(files, parse)
  }

  /** Loading two lists of files one after the other is loading their concatenation. */
  lemma {:induction false} LoadWithAppend(a: seq<Fixture>, b: seq<Fixture>, parse: Fixture -> Result<seq<DatTest>, DecodeError>)
    requires LoadWith(a + b, parse).Success?
    ensures LoadWith(a, parse).Success? && LoadWith(b, parse).Success?
    ensures LoadWith(a + b, parse).value == LoadWith(a, parse).value + LoadWith(b, parse).value
    decreases |a|
  {
    if |a| == 0 {
      assert a + b == b;
    } else {
      assert (a + b)[1..] == a[1..] + b;
      assert (a + b)[0] == a[0];
      LoadWithAppend(a[1..], b, parse);
    }
  }

  /** `part` sits in `all` from position `off` on. */
  predicate OccursAt(all: seq<DatTest>, off: nat, part: seq<DatTest>) {
    off + |part| <= |all| && all[off..off + |part|] == part
  }

  /** The tests of file `k` come, in order, right after those of the files before it. */
  lemma LoadWithSlice(files: seq<Fixture>, parse: Fixture -> Result<seq<DatTest>, DecodeError>, k: nat)
    requires k < |files| && LoadWith(files, parse).Success?
    ensures LoadWith(files[..k], parse).Success? && parse(files[k]).Success?
    ensures OccursAt(LoadWith(files, parse).value, |LoadWith(files[..k], parse).value|, parse(files[k]).value)
  {
    assert files == files[..k] + files[k..];
    LoadWithAppend(files[..k], files[k..], parse);
    assert files[k..][0] == files[k];
  }

  /** Every loaded test comes from one file's parse. */
  lemma {:induction false} LoadWithFrom(files: seq<Fixture>, parse: Fixture -> Result<seq<DatTest>, DecodeError>, t: DatTest)
    requires LoadWith(files, parse).Success? && t in LoadWith(files, parse).value
    ensures exists i :: 0 <= i < |files| && parse(files[i]).Success? && t in parse(files[i]).value
    decreases |files|
  {
    if t !in parse(files[0]).value {
      LoadWithFrom(files[1..], parse, t);
      var i :| 0 <= i < |files| - 1 && parse(files[1..][i]).Success? && t in parse(files[1..][i]).value;
      assert files[1..][i] == files[i + 1];
    }
  }

  /** Every loaded test names one of the files, as `str(Path(..))` renders it, as its
      source. */
  lemma LoadTestsSources(files: seq<Fixture>, codecs: Codecs)
    requires LoadTests(files, codecs).Success?
    ensures forall t :: t in LoadTests(files, codecs).value ==>
              exists i :: 0 <= i < |files| && t.sourceFile == PathName(files[i].path)
  {
    var parse := FileParser(codecs);
    LoadTestsIsLoadWith(files, codecs);
    forall t | t in LoadWith(files, parse).value
      ensures exists i :: 0 <= i < |files| && t.sourceFile == PathName(files[i].path)
    {
      LoadWithFrom(files, parse, t);
      var i :| 0 <= i < |files| && parse(files[i]).Success? && t in parse(files[i]).value;
      FileParserIs(codecs, files[i]);
      ParseFileNames(files[i].path, files[i].data, codecs, t);
    }
  }

  lemma LoadTestsIsLoadWith(files: seq<Fixture>, codecs: Codecs)
    ensures LoadTests(files, codecs) == LoadWith(files, FileParser(codecs))
  {
  }

  lemma FileParserIs(codecs: Codecs, f: Fixture)
    ensures FileParser(codecs)(f) == ParseFile(f.path, f.data, codecs)
  {
  }

  /** The tests of file `k` come, in order, right after those of the files before it. */
  lemma LoadTestsPerFile(files: seq<Fixture>, codecs: Codecs, k: nat)
    requires k < |files| && LoadTests(files, codecs).Success?
    ensures LoadTests(files[..k], codecs).Success? && ParseFile(files[k].path, files[k].data, codecs).Success?
    ensures OccursAt(LoadTests(files, codecs).value, |LoadTests(files[..k], codecs).value|,
                     ParseFile(files[k].path, files[k].data, codecs).value)
  {
    var parse := FileParser(codecs);
    LoadWithSlice(files, parse, k);
    LoadTestsIsLoadWith(files, codecs);
    LoadTestsIsLoadWith(files[..k], codecs);
    FileParserIs(codecs, files[k]);
  }

  /** The index restarts with every file: the tests of file `k` are numbered from 0 in
      the loaded list, and all name that file. */
  lemma LoadTestsIndexPerFile(files: seq<Fixture>, codecs: Codecs, k: nat)
    requires k < |files| && LoadTests(files, codecs).Success?
    ensures LoadTests(files[..k], codecs).Success? && ParseFile(files[k].path, files[k].data, codecs).Success?
    ensures var all, off := LoadTests(files, codecs).value, |LoadTests(files[..k], codecs).value|;
            var n := |ParseFile(files[k].path, files[k].data, codecs).value|;
            off + n <= |all| &&
            forall j :: off <= j < off + n ==> all[j].index == j - off && all[j].sourceFile == PathName(files[k].path)
  {
    LoadTestsPerFile(files, codecs, k);
    var all, off := LoadTests(files, codecs).value, |LoadTests(files[..k], codecs).value|;
    SliceNumbered(all, off, ParseFile(files[k].path, files[k].data, codecs).value, PathName(files[k].path));
  }

  /** A run of tests numbered from 0 and named `src`, found at `off` in `all`. */
  lemma SliceNumbered(all: seq<DatTest>, off: nat, mine: seq<DatTest>, src: string)
    requires OccursAt(all, off, mine)
    requires forall i :: 0 <= i < |mine| ==> mine[i].index == i && mine[i].sourceFile == src
    ensures forall j :: off <= j < off + |mine| ==> all[j].index == j - off && all[j].sourceFile == src
  {
    forall j | off <= j < off + |mine| ensures all[j] == mine[j - off] {
      assert all[off..off + |mine|][j - off] == all[j];
    }
  }
}
