/** The html5lib-tests `.dat` fixture parser (src/html5lib_tests_bench/html5lib_dat.py).

    The Python loop over `text.splitlines()` with its `flush` closure is modelled as a fold
    over the line sequence: `Scan(p, src)` is the accumulator after the lines `p` (defined
    by recursion on the last line, so `Scan(p + [l]) == Step(Scan(p), l)`), and
    `ParseLines` performs the closing flush.

    The record has no scripting flag and the parser gives `#script-on` / `#script-off`
    no meaning: like every other unknown marker they close the current section. */
module DatParser {
  import opened Wrappers
  import opened Text

  /** One parsed fixture case (`Html5libDatTest`). */
  datatype DatTest = DatTest(
    sourceFile: string,
    index: nat,
    data: string,
    expectedTree: Option<string>,
    fragmentContext: Option<string>)

  /** The section whose lines are currently captured; `NoSection` discards lines. */
  datatype Section = NoSection | DataSection | DocumentSection | FragmentSection

  /** The parser's running state: the section, the three line buffers, the tests emitted
      so far and the index the next emitted test gets. */
  datatype Acc = Acc(
    section: Section,
    dataLines: seq<string>,
    documentLines: seq<string>,
    fragmentLines: seq<string>,
    tests: seq<DatTest>,
    testIndex: nat)

  const Init := Acc(NoSection, [], [], [], [], 0)

  predicate IsMarker(line: string) {
    |line| > 0 && line[0] == '#'
  }

  /** The marker name: the rest of the line, trimmed and lower-cased. */
  function MarkerKey(line: string): string
    requires IsMarker(line)
  {
    Lower(StripSpace(line[1..]))
  }

  /** `raw.rstrip("\n")`. */
  function LineOf(raw: string): string {
    RStripChar(raw, '\n')
  }

  /** The section a marker opens; unknown markers (including `script-on`) open none. */
  function SectionOfKey(key: string): Section {
    if key == "data" then DataSection
    else if key == "document" then DocumentSection
    else if key == "document-fragment" then FragmentSection
    else NoSection
  }

  predicate IsDataMarker(raw: string) {
    IsMarker(LineOf(raw)) && MarkerKey(LineOf(raw)) == "data"
  }

  // ---------------------------------------------------------------- finalisation

  /** The expected tree of a test: the document lines if there are any, else the
      fragment lines after the context line, joined and stripped of line feeds at both
      ends; none when neither section had lines. */
  function ExpectedOf(documentLines: seq<string>, fragmentLines: seq<string>): (r: Option<string>)
    // an expectation exists exactly when a document or fragment section had lines
    ensures r.Some? <==> fragmentLines != [] || documentLines != []
    // and it never starts or ends with a line feed
    ensures r.Some? ==> |r.value| == 0 || (r.value[0] != '\n' && r.value[|r.value| - 1] != '\n')
  {
    // fragment tests usually carry the context under #document-fragment and the
    // expected tree under #document
    if fragmentLines != [] then
      var treeLines := if documentLines != [] then documentLines else fragmentLines[1..];
      Some(if treeLines != [] then StripNewlines(Join(treeLines, '\n')) else "")
    else if documentLines != [] then Some(StripNewlines(Join(documentLines, '\n')))
    else None
  }

  /** The fragment context: the trimmed first fragment line, unless that is blank. */
  function ContextOf(fragmentLines: seq<string>): (r: Option<string>)
    ensures r.Some? ==> fragmentLines != [] && r.value == StripSpace(fragmentLines[0]) && r.value != ""
    ensures fragmentLines != [] && StripSpace(fragmentLines[0]) != "" ==> r.Some?
  {
    if fragmentLines == [] then None
    else
      var context := StripSpace(fragmentLines[0]);
      if context == "" then None else Some(context)
  }

  /** `_finalize_test`: the test described by the three buffers, if the data buffer
      holds at least one line. */
  function Finalize(
    src: string, index: nat,
    dataLines: seq<string>, documentLines: seq<string>, fragmentLines: seq<string>
  ): (r: Option<DatTest>)
    ensures r.None? <==> dataLines == []
    ensures r.Some? ==> r.value.sourceFile == src && r.value.index == index
    ensures r.Some? ==> r.value.data == Join(dataLines, '\n')
    ensures r.Some? ==> r.value.expectedTree == ExpectedOf(documentLines, fragmentLines)
    ensures r.Some? ==> r.value.fragmentContext == ContextOf(fragmentLines)
  {
    if dataLines == [] then None
    else Some(DatTest(src, index, Join(dataLines, '\n'), ExpectedOf(documentLines, fragmentLines), ContextOf(fragmentLines)))
  }

  /** The `flush` closure: finalise, append the test if there is one (advancing the
      index), and empty the three buffers. The section is left as it was. */
  function Flush(acc: Acc, src: string): (r: Acc)
    ensures r.section == acc.section
    ensures r.dataLines == [] && r.documentLines == [] && r.fragmentLines == []
    ensures acc.dataLines == [] ==> r.tests == acc.tests && r.testIndex == acc.testIndex
    ensures acc.dataLines != [] ==>
              |r.tests| == |acc.tests| + 1 && r.tests[..|acc.tests|] == acc.tests
              && r.testIndex == acc.testIndex + 1
    // the appended test is the one the buffers make, numbered with the current index
    ensures acc.dataLines != [] ==>
              r.tests[|acc.tests|] == Finalize(src, acc.testIndex, acc.dataLines, acc.documentLines, acc.fragmentLines).value
  {
    var t := Finalize(src, acc.testIndex, acc.dataLines, acc.documentLines, acc.fragmentLines);
    var tests := if t.Some? then acc.tests + [t.value] else acc.tests;
    var testIndex := if t.Some? then acc.testIndex + 1 else acc.testIndex;
    Acc(acc.section, [], [], [], tests, testIndex)
  }

  /** One iteration of the loop over lines. */
  function Step(acc: Acc, raw: string, src: string): Acc {
    var line := LineOf(raw);
    if IsMarker(line) then
      var key := MarkerKey(line);
      if key == "data" then
        // a new #data starts a new test, but only a non-empty data block is flushed
        var flushed := if acc.dataLines != [] then Flush(acc, src) else acc;
        flushed.(section := DataSection)
      else if key == "document" || key == "document-fragment" then
        acc.(section := SectionOfKey(key))
      else
        acc.(section := NoSection)
    else
      match acc.section
      case DataSection => acc.(dataLines := acc.dataLines + [line])
      case DocumentSection => acc.(documentLines := acc.documentLines + [line])
      case FragmentSection => acc.(fragmentLines := acc.fragmentLines + [line])
      case NoSection => acc
  }

  /** The accumulator after the lines `p`. */
  function Scan(p: seq<string>, src: string): Acc
    decreases |p|
  {
    if |p| == 0 then Init else Step(Scan(p[..|p| - 1], src), p[|p| - 1], src)
  }

  // ---------------------------------------------------------------- reference definitions

  /** The section in force after the lines `p`: the one opened by the last marker line,
      independently of any buffer. */
  function SectionAfter(p: seq<string>): Section
    decreases |p|
  {
    if |p| == 0 then NoSection
    else
      var line := LineOf(p[|p| - 1]);
      if IsMarker(line) then SectionOfKey(MarkerKey(line)) else SectionAfter(p[..|p| - 1])
  }

  /** The content lines of `p` that sit inside a section `sec`. */
  function Content(p: seq<string>, sec: Section): set<string>
    decreases |p|
  {
    if |p| == 0 then {}
    else
      var init := p[..|p| - 1];
      var line := LineOf(p[|p| - 1]);
      Content(init, sec) + (if !IsMarker(line) && SectionAfter(init) == sec then {line} else {})
  }

  /** The number of `#data` marker lines in `p`. */
  function DataMarkerCount(p: seq<string>): nat
    decreases |p|
  {
    if |p| == 0 then 0
    else DataMarkerCount(p[..|p| - 1]) + (if IsDataMarker(p[|p| - 1]) then 1 else 0)
  }

  /** Every emitted test's data is made of content lines from data sections, and every
      line of its expected tree is empty or a content line of a document or fragment
      section. */
  ghost predicate FromSections(t: DatTest, p: seq<string>) {
    && (forall x :: x in SplitOn(t.data, '\n') ==> x in Content(p, DataSection))
    && (t.expectedTree.Some? ==>
          forall x :: x in SplitOn(t.expectedTree.value, '\n') ==>
            x == "" || x in Content(p, DocumentSection) || x in Content(p, FragmentSection))
  }

  // ---------------------------------------------------------------- parsing

  /** `parse_html5lib_dat_text` on the lines of a fixture. */
  function ParseLines(lines: seq<string>, src: string): (r: seq<DatTest>)
    ensures forall i :: 0 <= i < |r| ==> r[i].index == i && r[i].sourceFile == src
    ensures |r| <= DataMarkerCount(lines)
  {
    ScanInvariant(lines, src);
    Flush(Scan(lines, src), src).tests
  }

  /** `parse_html5lib_dat_text(text, source_file=src)`. */
  function ParseText(text: string, src: string): (r: seq<DatTest>)
    ensures forall i :: 0 <= i < |r| ==> r[i].index == i && r[i].sourceFile == src
  {
    ParseLines(SplitLines(text), src)
  }

  /** The parser as a loop: `Step` applied to each line in turn, then the final flush. */
  method ParseDatText(text: string, src: string) returns (tests: seq<DatTest>)
    ensures tests == ParseText(text, src)
    ensures forall i :: 0 <= i < |tests| ==> tests[i].index == i && tests[i].sourceFile == src
  {
    var lines := SplitLines(text);
    var acc := Init;
    var i := 0;
    while i < |lines|
      invariant 0 <= i <= |lines|
      invariant acc == Scan(lines[..i], src)
    {
      assert lines[..i + 1][..i] == lines[..i];
      acc := Step(acc, lines[i], src);
      i := i + 1;
    }
    assert lines[..|lines|] == lines;
    acc := Flush(acc, src);
    tests := acc.tests;
  }

  // ---------------------------------------------------------------- the fold's invariant

  /** What holds of the accumulator after the lines `p`. */
  ghost predicate Good(acc: Acc, p: seq<string>, src: string) {
    && acc.section == SectionAfter(p)
    && acc.testIndex == |acc.tests|
    && (forall i :: 0 <= i < |acc.tests| ==> acc.tests[i].index == i && acc.tests[i].sourceFile == src)
    && |acc.tests| + (if acc.dataLines != [] || acc.section == DataSection then 1 else 0)
         <= DataMarkerCount(p)
    && (forall x :: x in acc.dataLines ==> x in Content(p, DataSection))
    && (forall x :: x in acc.documentLines ==> x in Content(p, DocumentSection))
    && (forall x :: x in acc.fragmentLines ==> x in Content(p, FragmentSection))
  }

  /** The part of the invariant that needs lines free of line feeds. */
  ghost predicate Sound(acc: Acc, p: seq<string>) {
    && NoSep(acc.dataLines, '\n') && NoSep(acc.documentLines, '\n') && NoSep(acc.fragmentLines, '\n')
    && (forall i :: 0 <= i < |acc.tests| ==> FromSections(acc.tests[i], p))
  }

  lemma ContentGrows(p: seq<string>, raw: string, sec: Section)
    ensures Content(p, sec) <= Content(p + [raw], sec)
  {
    assert (p + [raw])[..|p|] == p;
  }

  lemma FromSectionsGrows(t: DatTest, p: seq<string>, raw: string)
    requires FromSections(t, p)
    ensures FromSections(t, p + [raw])
  {
    ContentGrows(p, raw, DataSection);
    ContentGrows(p, raw, DocumentSection);
    ContentGrows(p, raw, FragmentSection);
  }

  /** Splitting the expected tree built from `lines` gives lines of `lines`, or one
      empty line. */
  lemma TreeLinesFrom(lines: seq<string>)
    requires NoSep(lines, '\n')
    ensures forall x :: x in SplitOn(StripNewlines(Join(lines, '\n')), '\n') ==> x == "" || x in lines
  {
    StripNewlinesJoin(lines);
    var t := TrimEmpty(lines);
    if |t| == 0 {
      assert SplitOn("", '\n') == [""];
    } else {
      TrimEmptyNoSep(lines, '\n');
      SplitOnJoin(t, '\n');
      forall x | x in t ensures x in lines {
        TrimEmptyWithin(lines, x);
      }
    }
  }

  /** The expected tree read independently of the line-feed stripping: the chosen lines
      (the document lines if any, else the fragment lines after the context line) without
      their leading and trailing empty lines, joined. So a fragment block holding only its
      context line expects the empty tree, not none. */
  lemma ExpectedOfReference(documentLines: seq<string>, fragmentLines: seq<string>)
    requires NoSep(documentLines, '\n') && NoSep(fragmentLines, '\n')
    requires fragmentLines != [] || documentLines != []
    ensures var chosen := if documentLines != [] then documentLines else fragmentLines[1..];
            ExpectedOf(documentLines, fragmentLines) == Some(Join(TrimEmpty(chosen), '\n'))
  {
    var chosen := if documentLines != [] then documentLines else fragmentLines[1..];
    if documentLines == [] {
      NoSepSlice(fragmentLines, 1, |fragmentLines|, '\n');
    }
    if chosen != [] {
      StripNewlinesJoin(chosen);
    }
  }

  /** Every line of an expected tree is empty or one of the buffered lines. */
  lemma ExpectedLines(documentLines: seq<string>, fragmentLines: seq<string>)
    requires NoSep(documentLines, '\n') && NoSep(fragmentLines, '\n')
    ensures var e := ExpectedOf(documentLines, fragmentLines);
            e.Some? ==> forall x :: x in SplitOn(e.value, '\n') ==> x == "" || x in documentLines || x in fragmentLines
  {
    if fragmentLines != [] && documentLines == [] {
      var rest := fragmentLines[1..];
      NoSepSlice(fragmentLines, 1, |fragmentLines|, '\n');
      assert forall x :: x in rest ==> x in fragmentLines;
      if rest != [] {
        TreeLinesFrom(rest);
      } else {
        assert SplitOn("", '\n') == [""];
      }
    } else if documentLines != [] {
      TreeLinesFrom(documentLines);
    }
  }

  lemma FinalizeFromSections(
    src: string, index: nat, p: seq<string>,
    dataLines: seq<string>, documentLines: seq<string>, fragmentLines: seq<string>)
    requires NoSep(dataLines, '\n') && NoSep(documentLines, '\n') && NoSep(fragmentLines, '\n')
    requires forall x :: x in dataLines ==> x in Content(p, DataSection)
    requires forall x :: x in documentLines ==> x in Content(p, DocumentSection)
    requires forall x :: x in fragmentLines ==> x in Content(p, FragmentSection)
    requires dataLines != []
    ensures FromSections(Finalize(src, index, dataLines, documentLines, fragmentLines).value, p)
  {
    SplitOnJoin(dataLines, '\n');
    ExpectedLines(documentLines, fragmentLines);
  }

  lemma FlushGood(acc: Acc, p: seq<string>, src: string)
    requires Good(acc, p, src)
    ensures var r := Flush(acc, src);
            && r.testIndex == |r.tests|
            && (forall i :: 0 <= i < |r.tests| ==> r.tests[i].index == i && r.tests[i].sourceFile == src)
            && |r.tests| <= DataMarkerCount(p)
  {
  }

  lemma FlushSound(acc: Acc, p: seq<string>, src: string)
    requires Good(acc, p, src) && Sound(acc, p)
    ensures Sound(Flush(acc, src), p)
  {
    if acc.dataLines != [] {
      FinalizeFromSections(src, acc.testIndex, p, acc.dataLines, acc.documentLines, acc.fragmentLines);
    }
  }

  lemma LastLine(p: seq<string>, raw: string)
    ensures (p + [raw])[..|p|] == p && (p + [raw])[|p|] == raw
  {
  }

  /** The reference definitions after one more line. */
  lemma Extend(p: seq<string>, raw: string)
    ensures var line := LineOf(raw);
            && SectionAfter(p + [raw]) == (if IsMarker(line) then SectionOfKey(MarkerKey(line)) else SectionAfter(p))
            && DataMarkerCount(p + [raw]) == DataMarkerCount(p) + (if IsDataMarker(raw) then 1 else 0)
            && Content(p + [raw], DataSection) ==
                 Content(p, DataSection) + (if !IsMarker(line) && SectionAfter(p) == DataSection then {line} else {})
            && Content(p + [raw], DocumentSection) ==
                 Content(p, DocumentSection) + (if !IsMarker(line) && SectionAfter(p) == DocumentSection then {line} else {})
            && Content(p + [raw], FragmentSection) ==
                 Content(p, FragmentSection) + (if !IsMarker(line) && SectionAfter(p) == FragmentSection then {line} else {})
  {
    LastLine(p, raw);
  }

  lemma StepGoodData(acc: Acc, p: seq<string>, raw: string, src: string)
    requires Good(acc, p, src) && IsDataMarker(raw)
    ensures Good(Step(acc, raw, src), p + [raw], src)
  {
    Extend(p, raw);
    if acc.dataLines != [] {
      FlushGood(acc, p, src);
    }
  }

  lemma StepGoodMarker(acc: Acc, p: seq<string>, raw: string, src: string)
    requires Good(acc, p, src) && IsMarker(LineOf(raw)) && !IsDataMarker(raw)
    ensures Good(Step(acc, raw, src), p + [raw], src)
  {
    Extend(p, raw);
  }

  lemma StepGoodContent(acc: Acc, p: seq<string>, raw: string, src: string)
    requires Good(acc, p, src) && !IsMarker(LineOf(raw))
    ensures Good(Step(acc, raw, src), p + [raw], src)
  {
    Extend(p, raw);
  }

  lemma StepGood(acc: Acc, p: seq<string>, raw: string, src: string)
    requires Good(acc, p, src)
    ensures Good(Step(acc, raw, src), p + [raw], src)
  {
    if !IsMarker(LineOf(raw)) {
      StepGoodContent(acc, p, raw, src);
    } else if IsDataMarker(raw) {
      StepGoodData(acc, p, raw, src);
    } else {
      StepGoodMarker(acc, p, raw, src);
    }
  }

  /** Tests that came from the lines `p` still come from them once a line follows. */
  lemma TestsGrow(tests: seq<DatTest>, p: seq<string>, raw: string)
    requires forall i :: 0 <= i < |tests| ==> FromSections(tests[i], p)
    ensures forall i :: 0 <= i < |tests| ==> FromSections(tests[i], p + [raw])
  {
    forall i | 0 <= i < |tests| ensures FromSections(tests[i], p + [raw]) {
      FromSectionsGrows(tests[i], p, raw);
    }
  }

  lemma StepSoundData(acc: Acc, p: seq<string>, raw: string, src: string)
    requires Good(acc, p, src) && Sound(acc, p) && IsDataMarker(raw)
    ensures Sound(Step(acc, raw, src), p + [raw])
  {
    var acc' := if acc.dataLines != [] then Flush(acc, src) else acc;
    if acc.dataLines != [] {
      FlushSound(acc, p, src);
    }
    TestsGrow(acc'.tests, p, raw);
  }

  lemma StepSoundOther(acc: Acc, p: seq<string>, raw: string, src: string)
    requires Good(acc, p, src) && Sound(acc, p) && '\n' !in raw && !IsDataMarker(raw)
    ensures Sound(Step(acc, raw, src), p + [raw])
  {
    assert LineOf(raw) == raw;
    TestsGrow(acc.tests, p, raw);
  }

  lemma StepSound(acc: Acc, p: seq<string>, raw: string, src: string)
    requires Good(acc, p, src) && Sound(acc, p) && '\n' !in raw
    ensures Sound(Step(acc, raw, src), p + [raw])
  {
    if IsDataMarker(raw) {
      StepSoundData(acc, p, raw, src);
    } else {
      StepSoundOther(acc, p, raw, src);
    }
  }

  lemma {:induction false} ScanGood(p: seq<string>, src: string)
    ensures Good(Scan(p, src), p, src)
    decreases |p|
  {
    if |p| > 0 {
      var init := p[..|p| - 1];
      ScanGood(init, src);
      assert init + [p[|p| - 1]] == p;
      StepGood(Scan(init, src), init, p[|p| - 1], src);
    }
  }

  lemma {:induction false} ScanSound(p: seq<string>, src: string)
    requires NoSep(p, '\n')
    ensures Sound(Scan(p, src), p)
    decreases |p|
  {
    if |p| > 0 {
      var init := p[..|p| - 1];
      NoSepSlice(p, 0, |p| - 1, '\n');
      ScanSound(init, src);
      ScanGood(init, src);
      assert init + [p[|p| - 1]] == p;
      StepSound(Scan(init, src), init, p[|p| - 1], src);
    }
  }

  lemma ScanInvariant(p: seq<string>, src: string)
    ensures var r := Flush(Scan(p, src), src).tests;
            && (forall i :: 0 <= i < |r| ==> r[i].index == i && r[i].sourceFile == src)
            && |r| <= DataMarkerCount(p)
  {
    ScanGood(p, src);
    FlushGood(Scan(p, src), p, src);
  }

  // ---------------------------------------------------------------- properties of the parser

  /** A content line is never a marker line. */
  lemma {:induction false} ContentIsNotMarker(p: seq<string>, sec: Section, x: string)
    requires x in Content(p, sec)
    ensures !IsMarker(x)
    decreases |p|
  {
    var init := p[..|p| - 1];
    if x !in Content(init, sec) {
      assert x == LineOf(p[|p| - 1]);
    } else {
      ContentIsNotMarker(init, sec, x);
    }
  }

  /** Nothing outside a data section reaches `data`, and every line of an expected tree
      comes from a document or fragment section; so no such line starts with `#`. */
  lemma ParseProvenance(text: string, src: string)
    ensures forall t :: t in ParseText(text, src) ==> FromSections(t, SplitLines(text))
    ensures forall t, x :: t in ParseText(text, src) && x in SplitOn(t.data, '\n') ==> !IsMarker(x)
    ensures forall t, x ::
              (t in ParseText(text, src) && t.expectedTree.Some? && x in SplitOn(t.expectedTree.value, '\n'))
              ==> !IsMarker(x)
  {
    var lines := SplitLines(text);
    SplitLinesHasNoSep(text);
    ScanGood(lines, src);
    ScanSound(lines, src);
    FlushSound(Scan(lines, src), lines, src);
    var r := ParseText(text, src);
    forall t, x | t in r && x in SplitOn(t.data, '\n') ensures !IsMarker(x) {
      ContentIsNotMarker(lines, DataSection, x);
    }
    forall t, x | t in r && t.expectedTree.Some? && x in SplitOn(t.expectedTree.value, '\n')
      ensures !IsMarker(x)
    {
      if x != "" {
        if x in Content(lines, DocumentSection) {
          ContentIsNotMarker(lines, DocumentSection, x);
        } else {
          ContentIsNotMarker(lines, FragmentSection, x);
        }
      }
    }
  }

  /** A fixture without a `#data` line has no tests. */
  lemma NoDataMarkerNoTests(lines: seq<string>, src: string)
    requires forall i :: 0 <= i < |lines| ==> !IsDataMarker(lines[i])
    ensures ParseLines(lines, src) == []
  {
    assert DataMarkerCount(lines) == 0 by {
      NoDataMarkerCountsZero(lines);
    }
  }

  lemma {:induction false} NoDataMarkerCountsZero(lines: seq<string>)
    requires forall i :: 0 <= i < |lines| ==> !IsDataMarker(lines[i])
    ensures DataMarkerCount(lines) == 0
    decreases |lines|
  {
    if |lines| > 0 {
      NoDataMarkerCountsZero(lines[..|lines| - 1]);
    }
  }

  /** Equal states stay equal when the same lines follow. */
  lemma {:induction false} ScanAppend(p: seq<string>, p': seq<string>, q: seq<string>, src: string)
    requires Scan(p, src) == Scan(p', src)
    ensures Scan(p + q, src) == Scan(p' + q, src)
    decreases |q|
  {
    if |q| == 0 {
      assert p + q == p && p' + q == p';
    } else {
      var init := q[..|q| - 1];
      var last := q[|q| - 1];
      ScanAppend(p, p', init, src);
      AppendSnoc(p, q);
      AppendSnoc(p', q);
      ScanSnoc(p + init, last, src);
      ScanSnoc(p' + init, last, src);
    }
  }

  lemma AppendSnoc(p: seq<string>, q: seq<string>)
    requires |q| > 0
    ensures p + q == (p + q[..|q| - 1]) + [q[|q| - 1]]
  {
    assert q == q[..|q| - 1] + [q[|q| - 1]];
  }

  lemma ScanSnoc(p: seq<string>, raw: string, src: string)
    ensures Scan(p + [raw], src) == Step(Scan(p, src), raw, src)
  {
    LastLine(p, raw);
  }

  /** A line that leaves a parser with no open section as it is: a content line, or a
      marker that opens no section (`#errors`, `#script-on` and any other unknown key). */
  predicate Unrecognised(raw: string) {
    !IsMarker(LineOf(raw)) || SectionOfKey(MarkerKey(LineOf(raw))) == NoSection
  }

  /** Lines before the first recognised marker change nothing. */
  lemma {:induction false} NoiseKeepsInit(pre: seq<string>, src: string)
    requires forall i :: 0 <= i < |pre| ==> Unrecognised(pre[i])
    ensures Scan(pre, src) == Init
    decreases |pre|
  {
    if |pre| > 0 {
      NoiseKeepsInit(pre[..|pre| - 1], src);
      assert Unrecognised(pre[|pre| - 1]);
    }
  }

  /** Lines before the first recognised marker (`#data`, `#document` or
      `#document-fragment`) are discarded, unknown markers among them included. */
  lemma LeadingNoiseDiscarded(pre: seq<string>, rest: seq<string>, src: string)
    requires forall i :: 0 <= i < |pre| ==> Unrecognised(pre[i])
    ensures ParseLines(pre + rest, src) == ParseLines(rest, src)
  {
    NoiseKeepsInit(pre, src);
    assert Scan([], src) == Init;
    ScanAppend(pre, [], rest, src);
    assert [] + rest == rest;
  }

  // ---------------------------------------------------------------- one line at a time

  lemma AfterDataMarker(p: seq<string>, raw: string, src: string)
    requires IsDataMarker(raw)
    ensures var a := Scan(p, src);
            Scan(p + [raw], src) == (if a.dataLines != [] then Flush(a, src) else a).(section := DataSection)
  {
    LastLine(p, raw);
  }

  /** A `#data` line after a non-empty data block emits the test those buffers make,
      numbered with the next index, and starts the new test with all buffers empty. */
  lemma DataMarkerEmits(p: seq<string>, raw: string, src: string)
    requires IsDataMarker(raw) && Scan(p, src).dataLines != []
    ensures var a, b := Scan(p, src), Scan(p + [raw], src);
            && b.tests == a.tests + [Finalize(src, a.testIndex, a.dataLines, a.documentLines, a.fragmentLines).value]
            && b.testIndex == a.testIndex + 1
            && b.dataLines == [] && b.documentLines == [] && b.fragmentLines == []
            && b.section == DataSection
  {
    var a := Scan(p, src);
    AfterDataMarker(p, raw, src);
    assert Flush(a, src).tests == a.tests + [Finalize(src, a.testIndex, a.dataLines, a.documentLines, a.fragmentLines).value];
  }

  /** An empty data block emits nothing: the document and fragment lines gathered so far
      stay in their buffers and go to the next test that is emitted. */
  lemma EmptyDataBlockCarriesOver(p: seq<string>, raw: string, src: string)
    requires IsDataMarker(raw) && Scan(p, src).dataLines == []
    ensures var a, b := Scan(p, src), Scan(p + [raw], src);
            && b.tests == a.tests && b.dataLines == []
            && b.documentLines == a.documentLines && b.fragmentLines == a.fragmentLines
            && b.section == DataSection
  {
    AfterDataMarker(p, raw, src);
  }

  /** Only a `#data` line emits a test: any other line leaves the tests and the index as
      they are, and any other marker leaves every buffer as it is too. */
  lemma OnlyDataMarkerEmits(p: seq<string>, raw: string, src: string)
    requires !IsDataMarker(raw)
    ensures var a, b := Scan(p, src), Scan(p + [raw], src);
            && b.tests == a.tests && b.testIndex == a.testIndex
            && (IsMarker(LineOf(raw)) ==>
                  b.dataLines == a.dataLines && b.documentLines == a.documentLines && b.fragmentLines == a.fragmentLines)
  {
    StepKeepsTests(Scan(p, src), raw, src);
    ScanSnoc(p, raw, src);
  }

  lemma StepKeepsTests(acc: Acc, raw: string, src: string)
    requires !IsDataMarker(raw)
    ensures var b := Step(acc, raw, src);
            && b.tests == acc.tests && b.testIndex == acc.testIndex
            && (IsMarker(LineOf(raw)) ==>
                  b.dataLines == acc.dataLines && b.documentLines == acc.documentLines && b.fragmentLines == acc.fragmentLines)
  {
  }

  /** A content line joins exactly one buffer: the one of the section the last marker
      line before it opened, and none when that marker opened no section (or there was
      none). Nothing is emitted. */
  lemma ContentLineBuffered(p: seq<string>, raw: string, src: string)
    requires !IsMarker(LineOf(raw))
    ensures var a, b, line, sec := Scan(p, src), Scan(p + [raw], src), LineOf(raw), SectionAfter(p);
            && b.dataLines == a.dataLines + (if sec == DataSection then [line] else [])
            && b.documentLines == a.documentLines + (if sec == DocumentSection then [line] else [])
            && b.fragmentLines == a.fragmentLines + (if sec == FragmentSection then [line] else [])
            && b.tests == a.tests && b.section == a.section
  {
    ScanGood(p, src);
    LastLine(p, raw);
  }
}
