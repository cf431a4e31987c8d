/** `_normalize_expected_tree` (src/html5lib_tests_bench/cli.py): the canonical form in which
    the expected and the actual tree are compared. Leading and trailing line feeds are
    stripped, the rest is split into lines, every line loses its trailing whitespace, and
    the lines are joined again with `'\n'`. */
module TreeNormalize {
  import opened Text

  /** Every line without its trailing whitespace. */
  function RStripLines(lines: seq<string>): (r: seq<string>)
    ensures |r| == |lines|
  {
    seq(|lines|, i requires 0 <= i < |lines| => RStripSpace(lines[i]))
  }

  /** A line that is empty or does not end in whitespace. */
  predicate EndsClean(line: string) {
    line == "" || !IsSpace(line[|line| - 1])
  }

  /** Stripped lines keep having no line feed, and none ends in whitespace. */
  lemma RStripLinesClean(lines: seq<string>)
    requires NoSep(lines, '\n')
    ensures NoSep(RStripLines(lines), '\n')
    ensures forall i :: 0 <= i < |lines| ==> EndsClean(RStripLines(lines)[i])
  {
    var r := RStripLines(lines);
    forall i | 0 <= i < |r| ensures '\n' !in r[i] {
      assert r[i] <= lines[i];
    }
  }

  function NormalizeTree(s: string): (r: string)
    // no line of the result ends in whitespace
    ensures forall i :: 0 <= i < |SplitOn(r, '\n')| ==> EndsClean(SplitOn(r, '\n')[i])
  {
    var lines := SplitLines(StripNewlines(s));
    SplitLinesHasNoSep(StripNewlines(s));
    RStripLinesClean(lines);
    var stripped := RStripLines(lines);
    if |stripped| > 0 then
      SplitOnJoin(stripped, '\n');
      Join(stripped, '\n')
    else
      assert SplitOn("", '\n') == [""];
      Join(stripped, '\n')
  }

  /** A reference reading of the normaliser: cut the text at every line feed, drop the
      empty lines at both ends, strip each remaining line on the right and rejoin. */
  lemma NormalizeReference(s: string)
    ensures NormalizeTree(s) == Join(RStripLines(TrimEmpty(SplitOn(s, '\n'))), '\n')
  {
    var lines := SplitOn(s, '\n');
    JoinSplitOn(s, '\n');
    SplitOnHasNoSep(s, '\n');
    StripNewlinesJoin(lines);
    var t := TrimEmpty(lines);
    TrimEmptyNoSep(lines, '\n');
    SplitLinesJoin(t);
  }

  // ---------------------------------------------------------------- surrounding line feeds

  lemma {:induction false} SplitOnSnocSep(s: string, sep: char)
    ensures SplitOn(s + [sep], sep) == SplitOn(s, sep) + [""]
    decreases |s|
  {
    if |s| == 0 {
      assert s + [sep] == [sep];
      assert [sep][1..] == "";
    } else {
      assert (s + [sep])[1..] == s[1..] + [sep];
      SplitOnSnocSep(s[1..], sep);
    }
  }

  lemma DropTrailingEmptyCons(lines: seq<string>)
    ensures DropTrailingEmpty([""] + lines) ==
              if DropTrailingEmpty(lines) == [] then [] else [""] + DropTrailingEmpty(lines)
    decreases |lines|
  {
    var n := |lines|;
    if n > 0 {
      assert ([""] + lines)[..n] == [""] + lines[..n - 1];
    }
  }

  /** A leading line feed does not change the normal form. */
  lemma LeadingNewlineIgnored(s: string)
    ensures NormalizeTree("\n" + s) == NormalizeTree(s)
  {
    assert TrimEmpty(SplitOn("\n" + s, '\n')) == TrimEmpty(SplitOn(s, '\n')) by {
      assert "\n" + s == "" + ['\n'] + s;
      SplitOnPiece("", '\n', s);
      var lines := SplitOn(s, '\n');
      DropTrailingEmptyCons(lines);
      var t := DropTrailingEmpty(lines);
      if t != [] {
        assert ([""] + t)[1..] == t;
      }
    }
    NormalizeReference("\n" + s);
    NormalizeReference(s);
  }

  /** A trailing line feed does not change the normal form. */
  lemma TrailingNewlineIgnored(s: string)
    ensures NormalizeTree(s + "\n") == NormalizeTree(s)
  {
    assert TrimEmpty(SplitOn(s + "\n", '\n')) == TrimEmpty(SplitOn(s, '\n')) by {
      var lines := SplitOn(s, '\n');
      SplitOnSnocSep(s, '\n');
      assert s + "\n" == s + ['\n'];
      assert (lines + [""])[..|lines|] == lines;
      assert DropTrailingEmpty(lines + [""]) == DropTrailingEmpty(lines);
    }
    NormalizeReference(s + "\n");
    NormalizeReference(s);
  }

  // ---------------------------------------------------------------- trailing whitespace

  /** Two line lists that agree line by line once trailing whitespace is removed, and
      whose empty lines sit at the same places. */
  predicate SameUpToTrailingSpace(xs: seq<string>, ys: seq<string>) {
    |xs| == |ys| &&
    forall i :: 0 <= i < |xs| ==> RStripSpace(xs[i]) == RStripSpace(ys[i]) && (xs[i] == "" <==> ys[i] == "")
  }

  lemma {:induction false} DropTrailingEmptyAligned(xs: seq<string>, ys: seq<string>)
    requires SameUpToTrailingSpace(xs, ys)
    ensures SameUpToTrailingSpace(DropTrailingEmpty(xs), DropTrailingEmpty(ys))
    decreases |xs|
  {
    var n := |xs|;
    if n > 0 && xs[n - 1] == "" {
      DropTrailingEmptyAligned(xs[..n - 1], ys[..n - 1]);
    }
  }

  lemma {:induction false} DropLeadingEmptyAligned(xs: seq<string>, ys: seq<string>)
    requires SameUpToTrailingSpace(xs, ys)
    ensures SameUpToTrailingSpace(DropLeadingEmpty(xs), DropLeadingEmpty(ys))
    decreases |xs|
  {
    if |xs| > 0 && xs[0] == "" {
      DropLeadingEmptyAligned(xs[1..], ys[1..]);
    }
  }

  /** Texts whose lines differ only in trailing whitespace normalise alike, provided a
      line is empty in one exactly where it is empty in the other. */
  lemma TrailingSpaceIgnored(s: string, u: string)
    requires SameUpToTrailingSpace(SplitOn(s, '\n'), SplitOn(u, '\n'))
    ensures NormalizeTree(s) == NormalizeTree(u)
  {
    var xs := SplitOn(s, '\n');
    var ys := SplitOn(u, '\n');
    DropTrailingEmptyAligned(xs, ys);
    DropLeadingEmptyAligned(DropTrailingEmpty(xs), DropTrailingEmpty(ys));
    assert RStripLines(TrimEmpty(xs)) == RStripLines(TrimEmpty(ys));
    NormalizeReference(s);
    NormalizeReference(u);
  }

  lemma SplitTwo(a: string, b: string)
    requires '\n' !in a && '\n' !in b
    ensures SplitOn(a + "\n" + b, '\n') == [a, b]
  {
    assert a + "\n" + b == a + ['\n'] + b;
    SplitOnPiece(a, '\n', b);
    SplitOnNoSep(b, '\n');
  }

  lemma TrimTwo(a: string, b: string)
    requires b != ""
    ensures TrimEmpty([a, b]) == if a == "" then [b] else [a, b]
  {
    KeepTrailingTwo(a, b);
    if a == "" {
      DropLeadingTwo(b);
    } else {
      KeepLeadingTwo(a, b);
    }
  }

  lemma KeepTrailingTwo(a: string, b: string)
    requires b != ""
    ensures DropTrailingEmpty([a, b]) == [a, b]
  {
    assert [a, b][1] != "";
  }

  lemma DropLeadingTwo(b: string)
    requires b != ""
    ensures DropLeadingEmpty(["", b]) == [b]
  {
    assert ["", b][1..] == [b];
    assert DropLeadingEmpty([b]) == [b] by {
      assert [b][0] != "";
    }
  }

  lemma KeepLeadingTwo(a: string, b: string)
    requires a != ""
    ensures DropLeadingEmpty([a, b]) == [a, b]
  {
    assert [a, b][0] != "";
  }

  /** A two-line tree: an empty first line is dropped, any other first line is kept
      with its trailing whitespace removed. */
  lemma TwoLines(a: string, b: string)
    requires '\n' !in a && '\n' !in b && b != ""
    ensures NormalizeTree(a + "\n" + b) ==
              if a == "" then RStripSpace(b) else RStripSpace(a) + "\n" + RStripSpace(b)
  {
    TwoLinesTrimmed(a, b);
    TwoLinesJoined(a, b);
    NormalizeReference(a + "\n" + b);
  }

  lemma TwoLinesTrimmed(a: string, b: string)
    requires '\n' !in a && '\n' !in b && b != ""
    ensures TrimEmpty(SplitOn(a + "\n" + b, '\n')) == if a == "" then [b] else [a, b]
  {
    SplitTwo(a, b);
    TrimTwo(a, b);
  }

  lemma TwoLinesJoined(a: string, b: string)
    ensures Join(RStripLines(if a == "" then [b] else [a, b]), '\n') ==
              if a == "" then RStripSpace(b) else RStripSpace(a) + "\n" + RStripSpace(b)
  {
    var x, y := RStripSpace(a), RStripSpace(b);
    if a == "" {
      assert RStripLines([b]) == [y];
    } else {
      assert RStripLines([a, b]) == [x, y];
      JoinCons(x, [y], '\n');
      assert [x] + [y] == [x, y];
    }
  }

  /** A tree whose first line holds only two spaces. */
  const BlankThenA := "  \na"
  /** The same tree with the spaces removed. */
  const EmptyThenA := "\na"

  lemma BlankFirstLine()
    ensures NormalizeTree(BlankThenA) == EmptyThenA
  {
    assert BlankThenA == "  " + "\n" + "a";
    assert RStripSpace("  ") + "\n" + RStripSpace("a") == EmptyThenA by {
      assert RStripSpace("  ") == "";
      assert RStripSpace("a") == "a";
    }
    TwoLines("  ", "a");
  }

  lemma EmptyFirstLine()
    ensures NormalizeTree(EmptyThenA) == "a"
  {
    assert EmptyThenA == "" + "\n" + "a";
    assert RStripSpace("a") == "a";
    TwoLines("", "a");
  }

  /** The proviso of `TrailingSpaceIgnored` is needed: the two trees differ only in the
      trailing whitespace of their first line, yet normalise differently. And the
      normaliser is not idempotent: the whitespace-only first line survives one pass as an
      empty line and is removed by the next. */
  lemma BlankEdgeLine()
    ensures NormalizeTree(BlankThenA) != NormalizeTree(EmptyThenA)
    ensures NormalizeTree(NormalizeTree(BlankThenA)) != NormalizeTree(BlankThenA)
  {
    BlankFirstLine();
    EmptyFirstLine();
  }
}
