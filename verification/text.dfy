/** The few Python `str` operations the fixture parser and the tree normaliser rely on.

    Abstraction: whitespace is the ASCII part of Python's `str.isspace` (tab, line feed,
    vertical tab, form feed, carriage return, the four separators U+001C..U+001F and
    space), lower-casing maps only `A`..`Z`, and line splitting breaks only on `'\n'`. */
module Text {

  predicate IsSpace(c: char) {
    c == ' ' || '\t' <= c <= '\r' || '\U{1C}' <= c <= '\U{1F}'
  }

  /** No element of `lines` contains `sep`. */
  predicate NoSep(lines: seq<string>, sep: char) {
    forall i :: 0 <= i < |lines| ==> sep !in lines[i]
  }

  // ---------------------------------------------------------------- join / split

  /** Python's `sep.join(lines)` for a one-character separator. */
  function Join(lines: seq<string>, sep: char): string
    decreases |lines|
  {
    if |lines| == 0 then ""
    else if |lines| == 1 then lines[0]
    else lines[0] + [sep] + Join(lines[1..], sep)
  }

  /** Exact split at every `sep`: `k` separators give `k + 1` pieces. */
  function SplitOn(s: string, sep: char): (r: seq<string>)
    ensures |r| >= 1
    decreases |s|
  {
    if |s| == 0 then [""]
    else
      var rest := SplitOn(s[1..], sep);
      if s[0] == sep then [""] + rest
      else [[s[0]] + rest[0]] + rest[1..]
  }

  /** Python's `s.splitlines()` restricted to `'\n'`: a final line feed does not open
      an empty last line, and the empty string has no lines at all. */
  function SplitLines(s: string): seq<string>
  {
    if |s| == 0 then []
    else if s[|s| - 1] == '\n' then SplitOn(s[..|s| - 1], '\n')
    else SplitOn(s, '\n')
  }

  lemma JoinCons(x: string, ys: seq<string>, sep: char)
    ensures Join([x] + ys, sep) == if |ys| == 0 then x else x + [sep] + Join(ys, sep)
  {
    assert ([x] + ys)[1..] == ys;
  }

  lemma {:induction false} JoinSnoc(xs: seq<string>, y: string, sep: char)
    ensures Join(xs + [y], sep) == if |xs| == 0 then y else Join(xs, sep) + [sep] + y
    decreases |xs|
  {
    if |xs| == 0 {
      assert xs + [y] == [y];
    } else if |xs| == 1 {
      assert xs + [y] == [xs[0]] + [y];
      JoinCons(xs[0], [y], sep);
    } else {
      assert xs + [y] == [xs[0]] + (xs[1..] + [y]);
      JoinCons(xs[0], xs[1..] + [y], sep);
      JoinSnoc(xs[1..], y, sep);
      JoinCons(xs[0], xs[1..], sep);
      assert [xs[0]] + xs[1..] == xs;
    }
  }

  lemma {:induction false} SplitOnHasNoSep(s: string, sep: char)
    ensures NoSep(SplitOn(s, sep), sep)
    decreases |s|
  {
    if |s| > 0 {
      SplitOnHasNoSep(s[1..], sep);
    }
  }

  /** Joining the pieces of an exact split gives the string back. */
  lemma {:induction false} JoinSplitOn(s: string, sep: char)
    ensures Join(SplitOn(s, sep), sep) == s
    decreases |s|
  {
    if |s| > 0 {
      var rest := SplitOn(s[1..], sep);
      JoinSplitOn(s[1..], sep);
      if s[0] == sep {
        JoinCons("", rest, sep);
        assert s == [sep] + s[1..];
      } else {
        JoinCons([s[0]] + rest[0], rest[1..], sep);
        JoinCons(rest[0], rest[1..], sep);
        assert [rest[0]] + rest[1..] == rest;
        assert s == [s[0]] + s[1..];
      }
    }
  }

  lemma {:induction false} SplitOnNoSep(a: string, sep: char)
    requires sep !in a
    ensures SplitOn(a, sep) == [a]
    decreases |a|
  {
    if |a| > 0 {
      assert a[1..] + [] == a[1..];
      SplitOnNoSep(a[1..], sep);
      assert [a[0]] + a[1..] == a;
    }
  }

  lemma {:induction false} SplitOnPiece(a: string, sep: char, t: string)
    requires sep !in a
    ensures SplitOn(a + [sep] + t, sep) == [a] + SplitOn(t, sep)
    decreases |a|
  {
    var s := a + [sep] + t;
    if |a| == 0 {
      assert s[1..] == t;
    } else {
      assert s[1..] == a[1..] + [sep] + t;
      SplitOnPiece(a[1..], sep, t);
      assert [a[0]] + a[1..] == a;
    }
  }

  /** Splitting a join gives the pieces back when no piece holds the separator. */
  lemma {:induction false} SplitOnJoin(lines: seq<string>, sep: char)
    requires |lines| >= 1 && NoSep(lines, sep)
    ensures SplitOn(Join(lines, sep), sep) == lines
    decreases |lines|
  {
    if |lines| == 1 {
      SplitOnNoSep(lines[0], sep);
    } else {
      SplitOnJoin(lines[1..], sep);
      SplitOnPiece(lines[0], sep, Join(lines[1..], sep));
      assert [lines[0]] + lines[1..] == lines;
    }
  }

  lemma {:induction false} JoinEndsWithLastLine(lines: seq<string>, sep: char)
    requires |lines| >= 1 && |lines[|lines| - 1]| > 0
    ensures var j := Join(lines, sep);
            var last := lines[|lines| - 1];
            |j| > 0 && j[|j| - 1] == last[|last| - 1]
  {
    var n := |lines|;
    assert lines == lines[..n - 1] + [lines[n - 1]];
    JoinSnoc(lines[..n - 1], lines[n - 1], sep);
  }

  lemma SplitLinesHasNoSep(s: string)
    ensures NoSep(SplitLines(s), '\n')
  {
    if |s| > 0 {
      if s[|s| - 1] == '\n' {
        SplitOnHasNoSep(s[..|s| - 1], '\n');
      } else {
        SplitOnHasNoSep(s, '\n');
      }
    }
  }

  /** `splitlines` undoes `"\n".join` when no line holds a line feed and the last
      line is not empty (an empty last line would be lost with its line feed). */
  lemma SplitLinesJoin(lines: seq<string>)
    requires NoSep(lines, '\n')
    requires |lines| == 0 || lines[|lines| - 1] != ""
    ensures SplitLines(Join(lines, '\n')) == lines
  {
    if |lines| > 0 {
      JoinEndsWithLastLine(lines, '\n');
      SplitOnJoin(lines, '\n');
    }
  }

  // ---------------------------------------------------------------- stripping

  /** Python's `s.rstrip(c)` for one character `c`. */
  function RStripChar(s: string, c: char): (r: string)
    ensures r <= s
    ensures |r| == 0 || r[|r| - 1] != c
    ensures forall i :: |r| <= i < |s| ==> s[i] == c
    decreases |s|
  {
    if |s| > 0 && s[|s| - 1] == c then RStripChar(s[..|s| - 1], c) else s
  }

  /** Python's `s.lstrip(c)` for one character `c`. */
  function LStripChar(s: string, c: char): (r: string)
    ensures |r| <= |s| && r == s[|s| - |r|..]
    ensures |r| == 0 || r[0] != c
    ensures forall i :: 0 <= i < |s| - |r| ==> s[i] == c
    decreases |s|
  {
    if |s| > 0 && s[0] == c then LStripChar(s[1..], c) else s
  }

  /** Python's `s.strip("\n")`. */
  function StripNewlines(s: string): (r: string)
    ensures |r| == 0 || (r[0] != '\n' && r[|r| - 1] != '\n')
  {
    LStripChar(RStripChar(s, '\n'), '\n')
  }

  /** Python's `s.rstrip()`. */
  function RStripSpace(s: string): (r: string)
    ensures r <= s
    ensures |r| == 0 || !IsSpace(r[|r| - 1])
    ensures forall i :: |r| <= i < |s| ==> IsSpace(s[i])
    decreases |s|
  {
    if |s| > 0 && IsSpace(s[|s| - 1]) then RStripSpace(s[..|s| - 1]) else s
  }

  /** Python's `s.lstrip()`. */
  function LStripSpace(s: string): (r: string)
    ensures |r| <= |s| && r == s[|s| - |r|..]
    ensures |r| == 0 || !IsSpace(r[0])
    ensures forall i :: 0 <= i < |s| - |r| ==> IsSpace(s[i])
    decreases |s|
  {
    if |s| > 0 && IsSpace(s[0]) then LStripSpace(s[1..]) else s
  }

  /** Python's `s.strip()`: the longest slice of `s` that neither starts nor ends with
      whitespace, everything cut away being whitespace. */
  function StripSpace(s: string): (r: string)
    ensures |r| == 0 || (!IsSpace(r[0]) && !IsSpace(r[|r| - 1]))
    ensures |r| <= |s|
  {
    LStripSpace(RStripSpace(s))
  }

  function LowerChar(c: char): char {
    if 'A' <= c <= 'Z' then (c as int + 32) as char else c
  }

  /** Python's `s.lower()` on ASCII letters. */
  function Lower(s: string): string
    decreases |s|
  {
    if |s| == 0 then "" else [LowerChar(s[0])] + Lower(s[1..])
  }

  // ---------------------------------------------------------------- blank-line trimming

  function DropLeadingEmpty(lines: seq<string>): (r: seq<string>)
    ensures |r| <= |lines| && r == lines[|lines| - |r|..]
    ensures |r| == 0 || r[0] != ""
    decreases |lines|
  {
    if |lines| > 0 && lines[0] == "" then DropLeadingEmpty(lines[1..]) else lines
  }

  function DropTrailingEmpty(lines: seq<string>): (r: seq<string>)
    ensures r <= lines
    ensures |r| == 0 || r[|r| - 1] != ""
    decreases |lines|
  {
    if |lines| > 0 && lines[|lines| - 1] == "" then DropTrailingEmpty(lines[..|lines| - 1]) else lines
  }

  /** The lines without their leading and trailing empty lines. */
  function TrimEmpty(lines: seq<string>): (r: seq<string>)
    ensures |r| == 0 || (r[0] != "" && r[|r| - 1] != "")
    ensures |r| <= |lines|
  {
    var t := DropTrailingEmpty(lines);
    var r := DropLeadingEmpty(t);
    assert |r| > 0 ==> r[|r| - 1] == t[|t| - 1];
    r
  }

  /** Trimming keeps lines of the input only. */
  lemma TrimEmptyWithin(lines: seq<string>, x: string)
    requires x in TrimEmpty(lines)
    ensures x in lines
  {
    var t := DropTrailingEmpty(lines);
    var r := DropLeadingEmpty(t);
    var i :| 0 <= i < |r| && r[i] == x;
    var j := |t| - |r| + i;
    assert r[i] == t[j];
    assert t[j] == lines[j];
  }

  lemma TrimEmptyNoSep(lines: seq<string>, sep: char)
    requires NoSep(lines, sep)
    ensures NoSep(TrimEmpty(lines), sep)
  {
    var r := TrimEmpty(lines);
    forall i | 0 <= i < |r| ensures sep !in r[i] {
      TrimEmptyWithin(lines, r[i]);
    }
  }

  lemma {:induction false} LStripNewlinesJoin(lines: seq<string>)
    requires NoSep(lines, '\n')
    ensures LStripChar(Join(lines, '\n'), '\n') == Join(DropLeadingEmpty(lines), '\n')
    decreases |lines|
  {
    if |lines| > 0 {
      if lines[0] == "" {
        if |lines| > 1 {
          JoinCons("", lines[1..], '\n');
          assert [lines[0]] + lines[1..] == lines;
          var j := Join(lines[1..], '\n');
          assert Join(lines, '\n') == ['\n'] + j;
          assert (['\n'] + j)[1..] == j;
          LStripNewlinesJoin(lines[1..]);
        }
      } else {
        var j := Join(lines, '\n');
        assert [lines[0]] + lines[1..] == lines;
        JoinCons(lines[0], lines[1..], '\n');
        assert j[0] == lines[0][0];
      }
    }
  }

  lemma {:induction false} RStripNewlinesJoin(lines: seq<string>)
    requires NoSep(lines, '\n')
    ensures RStripChar(Join(lines, '\n'), '\n') == Join(DropTrailingEmpty(lines), '\n')
    decreases |lines|
  {
    var n := |lines|;
    if n > 0 {
      var init := lines[..n - 1];
      assert lines == init + [lines[n - 1]];
      JoinSnoc(init, lines[n - 1], '\n');
      if lines[n - 1] == "" {
        if n > 1 {
          var j := Join(init, '\n');
          assert Join(lines, '\n') == j + ['\n'];
          assert (j + ['\n'])[..|j|] == j;
          RStripNewlinesJoin(init);
        }
      } else {
        JoinEndsWithLastLine(lines, '\n');
      }
    }
  }

  /** `strip("\n")` of joined lines removes exactly the leading and trailing empty lines. */
  lemma StripNewlinesJoin(lines: seq<string>)
    requires NoSep(lines, '\n')
    ensures StripNewlines(Join(lines, '\n')) == Join(TrimEmpty(lines), '\n')
  {
    RStripNewlinesJoin(lines);
    var t := DropTrailingEmpty(lines);
    assert NoSep(t, '\n') by {
      forall i | 0 <= i < |t| ensures '\n' !in t[i] {
        assert t[i] == lines[i];
      }
    }
    LStripNewlinesJoin(t);
  }

  /** A slice of lines without line feeds has none either. */
  lemma NoSepSlice(lines: seq<string>, k: int, m: int, sep: char)
    requires NoSep(lines, sep) && 0 <= k <= m <= |lines|
    ensures NoSep(lines[k..m], sep)
  {
    forall i | 0 <= i < m - k ensures sep !in lines[k..m][i] {
      assert lines[k..m][i] == lines[k + i];
    }
  }
}
