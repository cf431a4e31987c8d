/** Steps for the proofs in `DatExamples`: the parser's state after each line of each
    fixture stated there, one small lemma per line, each proved from the one before it and
    that line's effect. These lemmas model nothing of the program; they keep each proof
    step small. */
module FixtureStates {
  import opened Wrappers
  import opened Text
  import opened DatParser

  // ---------------------------------------------------------------- marker lines

  lemma PlainWord(w: string)
    requires |w| > 0 && forall i :: 0 <= i < |w| ==> 'a' <= w[i] <= 'z' || w[i] == '-'
    ensures StripSpace(w) == w && Lower(w) == w
    decreases |w|
  {
    assert RStripSpace(w) == w;
    assert LStripSpace(w) == w;
    LowerIsIdentity(w);
  }

  lemma {:induction false} LowerIsIdentity(w: string)
    requires forall i :: 0 <= i < |w| ==> 'a' <= w[i] <= 'z' || w[i] == '-'
    ensures Lower(w) == w
    decreases |w|
  {
    if |w| > 0 {
      LowerIsIdentity(w[1..]);
      assert [w[0]] + w[1..] == w;
    }
  }

  lemma Marker(line: string, key: string)
    requires |key| > 0 && line == "#" + key
    requires forall i :: 0 <= i < |key| ==> 'a' <= key[i] <= 'z' || key[i] == '-'
    ensures LineOf(line) == line && IsMarker(line) && MarkerKey(line) == key
  {
    assert line[1..] == key;
    PlainWord(key);
  }

  /** `#data` flushes a non-empty data block and opens the data section. */
  lemma StepDataMarker(a: Acc, src: string)
    ensures Step(a, "#data", src) == (if a.dataLines != [] then Flush(a, src) else a).(section := DataSection)
  {
    Marker("#data", "data");
  }

  lemma StepDocumentMarker(a: Acc, src: string)
    ensures Step(a, "#document", src) == a.(section := DocumentSection)
  {
    Marker("#document", "document");
  }

  lemma StepFragmentMarker(a: Acc, src: string)
    ensures Step(a, "#document-fragment", src) == a.(section := FragmentSection)
  {
    Marker("#document-fragment", "document-fragment");
  }

  /** `#script-on` is not recognised: it closes the section like any unknown marker. */
  lemma StepScriptOnMarker(a: Acc, src: string)
    ensures Step(a, "#script-on", src) == a.(section := NoSection)
  {
    Marker("#script-on", "script-on");
  }

  /** A line that is not a marker and carries no line feed of its own. */
  predicate PlainLine(line: string) {
    |line| == 0 || (line[0] != '#' && line[|line| - 1] != '\n')
  }

  /** One content line, on the state alone. */
  lemma StepText(a: Acc, line: string, src: string)
    requires PlainLine(line)
    ensures Step(a, line, src) == match a.section
              case DataSection => a.(dataLines := a.dataLines + [line])
              case DocumentSection => a.(documentLines := a.documentLines + [line])
              case FragmentSection => a.(fragmentLines := a.fragmentLines + [line])
              case NoSection => a
  {
    assert LineOf(line) == line;
  }

  /** A line without a line feed extends a list of such lines. */
  lemma NoSepSnoc(xs: seq<string>, y: string)
    requires NoSep(xs, '\n') && '\n' !in y
    ensures NoSep(xs + [y], '\n')
  {
  }

  /** The tests of a fixture, read off the state after its last line. */
  lemma ParseAfter(lines: seq<string>, src: string, a: Acc)
    requires Scan(lines, src) == a
    ensures ParseLines(lines, src) == Flush(a, src).tests
  {
  }

  const Src := "x.dat"

  // ---------------------------------------------------------------- the fixtures' lines

  /** The first test of the two-test fixture. */
  const FirstOfTwo := DatTest(Src, 0, "One", Some("| <html>"), None)

  lemma FirstOfTwoFinalized()
    ensures Finalize(Src, 0, ["One"], ["| <html>", ""], []) == Some(FirstOfTwo)
  {
    assert Join(["| <html>", ""], '\n') == "| <html>\n";
    assert RStripChar("| <html>\n", '\n') == "| <html>";
    assert LStripChar("| <html>", '\n') == "| <html>";
  }

  /** The data line of the Latin-1 fixture; it holds code point U+00FE. */
  const ScriptLine := "<script>alert(\"\U{FE}\")</script>"

  const M1: seq<string> := ["#data"]
  const M2: seq<string> := M1 + ["One"]
  const M3: seq<string> := M2 + ["#document"]
  const M4: seq<string> := M3 + ["| <html>"]
  const M5: seq<string> := M4 + [""]
  const M6: seq<string> := M5 + ["#data"]
  const M7: seq<string> := M6 + ["Two"]
  const M8: seq<string> := M7 + ["#document"]
  const M9: seq<string> := M8 + ["| <html>"]

  lemma M1State()
    ensures Scan(M1, Src) == Acc(DataSection, [], [], [], [], 0)
  {
    assert Step(Init, "#data", Src) == Acc(DataSection, [], [], [], [], 0) by {
      StepDataMarker(Init, Src);
    }
    assert [] + ["#data"] == M1;
    ScanSnoc([], "#data", Src);
  }

  lemma M2State()
    ensures Scan(M2, Src) == Acc(DataSection, ["One"], [], [], [], 0)
  {
    assert Step(Acc(DataSection, [], [], [], [], 0), "One", Src) == Acc(DataSection, ["One"], [], [], [], 0) by {
      StepText(Acc(DataSection, [], [], [], [], 0), "One", Src);
    }
    M1State();
    ScanSnoc(M1, "One", Src);
  }

  lemma M3State()
    ensures Scan(M3, Src) == Acc(DocumentSection, ["One"], [], [], [], 0)
  {
    assert Step(Acc(DataSection, ["One"], [], [], [], 0), "#document", Src) == Acc(DocumentSection, ["One"], [], [], [], 0) by {
      StepDocumentMarker(Acc(DataSection, ["One"], [], [], [], 0), Src);
    }
    M2State();
    ScanSnoc(M2, "#document", Src);
  }

  lemma M4State()
    ensures Scan(M4, Src) == Acc(DocumentSection, ["One"], ["| <html>"], [], [], 0)
  {
    assert Step(Acc(DocumentSection, ["One"], [], [], [], 0), "| <html>", Src) == Acc(DocumentSection, ["One"], ["| <html>"], [], [], 0) by {
      StepText(Acc(DocumentSection, ["One"], [], [], [], 0), "| <html>", Src);
    }
    M3State();
    ScanSnoc(M3, "| <html>", Src);
  }

  lemma M5State()
    ensures Scan(M5, Src) == Acc(DocumentSection, ["One"], ["| <html>", ""], [], [], 0)
  {
    assert Step(Acc(DocumentSection, ["One"], ["| <html>"], [], [], 0), "", Src) == Acc(DocumentSection, ["One"], ["| <html>", ""], [], [], 0) by {
      StepText(Acc(DocumentSection, ["One"], ["| <html>"], [], [], 0), "", Src);
    }
    M4State();
    ScanSnoc(M4, "", Src);
  }

  lemma M6State()
    ensures Scan(M6, Src) == Acc(DataSection, [], [], [], [FirstOfTwo], 1)
  {
    assert Step(Acc(DocumentSection, ["One"], ["| <html>", ""], [], [], 0), "#data", Src) == Acc(DataSection, [], [], [], [FirstOfTwo], 1) by {
      StepDataMarker(Acc(DocumentSection, ["One"], ["| <html>", ""], [], [], 0), Src);
      FirstOfTwoFinalized();
    }
    M5State();
    ScanSnoc(M5, "#data", Src);
  }

  lemma M7State()
    ensures Scan(M7, Src) == Acc(DataSection, ["Two"], [], [], [FirstOfTwo], 1)
  {
    assert Step(Acc(DataSection, [], [], [], [FirstOfTwo], 1), "Two", Src) == Acc(DataSection, ["Two"], [], [], [FirstOfTwo], 1) by {
      StepText(Acc(DataSection, [], [], [], [FirstOfTwo], 1), "Two", Src);
    }
    M6State();
    ScanSnoc(M6, "Two", Src);
  }

  lemma M8State()
    ensures Scan(M8, Src) == Acc(DocumentSection, ["Two"], [], [], [FirstOfTwo], 1)
  {
    assert Step(Acc(DataSection, ["Two"], [], [], [FirstOfTwo], 1), "#document", Src) == Acc(DocumentSection, ["Two"], [], [], [FirstOfTwo], 1) by {
      StepDocumentMarker(Acc(DataSection, ["Two"], [], [], [FirstOfTwo], 1), Src);
    }
    M7State();
    ScanSnoc(M7, "#document", Src);
  }

  lemma M9State()
    ensures Scan(M9, Src) == Acc(DocumentSection, ["Two"], ["| <html>"], [], [FirstOfTwo], 1)
  {
    assert Step(Acc(DocumentSection, ["Two"], [], [], [FirstOfTwo], 1), "| <html>", Src) == Acc(DocumentSection, ["Two"], ["| <html>"], [], [FirstOfTwo], 1) by {
      StepText(Acc(DocumentSection, ["Two"], [], [], [FirstOfTwo], 1), "| <html>", Src);
    }
    M8State();
    ScanSnoc(M8, "| <html>", Src);
  }

  const F1: seq<string> := ["#data"]
  const F2: seq<string> := F1 + ["<b>Hi</b>"]
  const F3: seq<string> := F2 + ["#document-fragment"]
  const F4: seq<string> := F3 + ["div"]
  const F5: seq<string> := F4 + ["| <b>"]
  const F6: seq<string> := F5 + ["|   \"Hi\""]

  lemma F1State()
    ensures Scan(F1, Src) == Acc(DataSection, [], [], [], [], 0)
  {
    assert Step(Init, "#data", Src) == Acc(DataSection, [], [], [], [], 0) by {
      StepDataMarker(Init, Src);
    }
    assert [] + ["#data"] == F1;
    ScanSnoc([], "#data", Src);
  }

  lemma F2State()
    ensures Scan(F2, Src) == Acc(DataSection, ["<b>Hi</b>"], [], [], [], 0)
  {
    assert Step(Acc(DataSection, [], [], [], [], 0), "<b>Hi</b>", Src) == Acc(DataSection, ["<b>Hi</b>"], [], [], [], 0) by {
      StepText(Acc(DataSection, [], [], [], [], 0), "<b>Hi</b>", Src);
    }
    F1State();
    ScanSnoc(F1, "<b>Hi</b>", Src);
  }

  lemma F3State()
    ensures Scan(F3, Src) == Acc(FragmentSection, ["<b>Hi</b>"], [], [], [], 0)
  {
    assert Step(Acc(DataSection, ["<b>Hi</b>"], [], [], [], 0), "#document-fragment", Src) == Acc(FragmentSection, ["<b>Hi</b>"], [], [], [], 0) by {
      StepFragmentMarker(Acc(DataSection, ["<b>Hi</b>"], [], [], [], 0), Src);
    }
    F2State();
    ScanSnoc(F2, "#document-fragment", Src);
  }

  lemma F4State()
    ensures Scan(F4, Src) == Acc(FragmentSection, ["<b>Hi</b>"], [], ["div"], [], 0)
  {
    assert Step(Acc(FragmentSection, ["<b>Hi</b>"], [], [], [], 0), "div", Src) == Acc(FragmentSection, ["<b>Hi</b>"], [], ["div"], [], 0) by {
      StepText(Acc(FragmentSection, ["<b>Hi</b>"], [], [], [], 0), "div", Src);
    }
    F3State();
    ScanSnoc(F3, "div", Src);
  }

  lemma F5State()
    ensures Scan(F5, Src) == Acc(FragmentSection, ["<b>Hi</b>"], [], ["div", "| <b>"], [], 0)
  {
    assert Step(Acc(FragmentSection, ["<b>Hi</b>"], [], ["div"], [], 0), "| <b>", Src) == Acc(FragmentSection, ["<b>Hi</b>"], [], ["div", "| <b>"], [], 0) by {
      StepText(Acc(FragmentSection, ["<b>Hi</b>"], [], ["div"], [], 0), "| <b>", Src);
    }
    F4State();
    ScanSnoc(F4, "| <b>", Src);
  }

  lemma F6State()
    ensures Scan(F6, Src) == Acc(FragmentSection, ["<b>Hi</b>"], [], ["div", "| <b>", "|   \"Hi\""], [], 0)
  {
    assert Step(Acc(FragmentSection, ["<b>Hi</b>"], [], ["div", "| <b>"], [], 0), "|   \"Hi\"", Src) == Acc(FragmentSection, ["<b>Hi</b>"], [], ["div", "| <b>", "|   \"Hi\""], [], 0) by {
      StepText(Acc(FragmentSection, ["<b>Hi</b>"], [], ["div", "| <b>"], [], 0), "|   \"Hi\"", Src);
    }
    F5State();
    ScanSnoc(F5, "|   \"Hi\"", Src);
  }

  const G1: seq<string> := ["#data"]
  const G2: seq<string> := G1 + ["<nobr>X"]
  const G3: seq<string> := G2 + ["#document-fragment"]
  const G4: seq<string> := G3 + ["svg path"]
  const G5: seq<string> := G4 + ["#document"]
  const G6: seq<string> := G5 + ["| <nobr>"]
  const G7: seq<string> := G6 + ["|   \"X\""]

  lemma G1State()
    ensures Scan(G1, Src) == Acc(DataSection, [], [], [], [], 0)
  {
    assert Step(Init, "#data", Src) == Acc(DataSection, [], [], [], [], 0) by {
      StepDataMarker(Init, Src);
    }
    assert [] + ["#data"] == G1;
    ScanSnoc([], "#data", Src);
  }

  lemma G2State()
    ensures Scan(G2, Src) == Acc(DataSection, ["<nobr>X"], [], [], [], 0)
  {
    assert Step(Acc(DataSection, [], [], [], [], 0), "<nobr>X", Src) == Acc(DataSection, ["<nobr>X"], [], [], [], 0) by {
      StepText(Acc(DataSection, [], [], [], [], 0), "<nobr>X", Src);
    }
    G1State();
    ScanSnoc(G1, "<nobr>X", Src);
  }

  lemma G3State()
    ensures Scan(G3, Src) == Acc(FragmentSection, ["<nobr>X"], [], [], [], 0)
  {
    assert Step(Acc(DataSection, ["<nobr>X"], [], [], [], 0), "#document-fragment", Src) == Acc(FragmentSection, ["<nobr>X"], [], [], [], 0) by {
      StepFragmentMarker(Acc(DataSection, ["<nobr>X"], [], [], [], 0), Src);
    }
    G2State();
    ScanSnoc(G2, "#document-fragment", Src);
  }

  lemma G4State()
    ensures Scan(G4, Src) == Acc(FragmentSection, ["<nobr>X"], [], ["svg path"], [], 0)
  {
    assert Step(Acc(FragmentSection, ["<nobr>X"], [], [], [], 0), "svg path", Src) == Acc(FragmentSection, ["<nobr>X"], [], ["svg path"], [], 0) by {
      StepText(Acc(FragmentSection, ["<nobr>X"], [], [], [], 0), "svg path", Src);
    }
    G3State();
    ScanSnoc(G3, "svg path", Src);
  }

  lemma G5State()
    ensures Scan(G5, Src) == Acc(DocumentSection, ["<nobr>X"], [], ["svg path"], [], 0)
  {
    assert Step(Acc(FragmentSection, ["<nobr>X"], [], ["svg path"], [], 0), "#document", Src) == Acc(DocumentSection, ["<nobr>X"], [], ["svg path"], [], 0) by {
      StepDocumentMarker(Acc(FragmentSection, ["<nobr>X"], [], ["svg path"], [], 0), Src);
    }
    G4State();
    ScanSnoc(G4, "#document", Src);
  }

  lemma G6State()
    ensures Scan(G6, Src) == Acc(DocumentSection, ["<nobr>X"], ["| <nobr>"], ["svg path"], [], 0)
  {
    assert Step(Acc(DocumentSection, ["<nobr>X"], [], ["svg path"], [], 0), "| <nobr>", Src) == Acc(DocumentSection, ["<nobr>X"], ["| <nobr>"], ["svg path"], [], 0) by {
      StepText(Acc(DocumentSection, ["<nobr>X"], [], ["svg path"], [], 0), "| <nobr>", Src);
    }
    G5State();
    ScanSnoc(G5, "| <nobr>", Src);
  }

  lemma G7State()
    ensures Scan(G7, Src) == Acc(DocumentSection, ["<nobr>X"], ["| <nobr>", "|   \"X\""], ["svg path"], [], 0)
  {
    assert Step(Acc(DocumentSection, ["<nobr>X"], ["| <nobr>"], ["svg path"], [], 0), "|   \"X\"", Src) == Acc(DocumentSection, ["<nobr>X"], ["| <nobr>", "|   \"X\""], ["svg path"], [], 0) by {
      StepText(Acc(DocumentSection, ["<nobr>X"], ["| <nobr>"], ["svg path"], [], 0), "|   \"X\"", Src);
    }
    G6State();
    ScanSnoc(G6, "|   \"X\"", Src);
  }

  const E1: seq<string> := ["#data"]
  const E2: seq<string> := E1 + ["#document"]
  const E3: seq<string> := E2 + ["| a"]
  const E4: seq<string> := E3 + ["#data"]
  const E5: seq<string> := E4 + ["x"]

  lemma E1State()
    ensures Scan(E1, Src) == Acc(DataSection, [], [], [], [], 0)
  {
    assert Step(Init, "#data", Src) == Acc(DataSection, [], [], [], [], 0) by {
      StepDataMarker(Init, Src);
    }
    assert [] + ["#data"] == E1;
    ScanSnoc([], "#data", Src);
  }

  lemma E2State()
    ensures Scan(E2, Src) == Acc(DocumentSection, [], [], [], [], 0)
  {
    assert Step(Acc(DataSection, [], [], [], [], 0), "#document", Src) == Acc(DocumentSection, [], [], [], [], 0) by {
      StepDocumentMarker(Acc(DataSection, [], [], [], [], 0), Src);
    }
    E1State();
    ScanSnoc(E1, "#document", Src);
  }

  lemma E3State()
    ensures Scan(E3, Src) == Acc(DocumentSection, [], ["| a"], [], [], 0)
  {
    assert Step(Acc(DocumentSection, [], [], [], [], 0), "| a", Src) == Acc(DocumentSection, [], ["| a"], [], [], 0) by {
      StepText(Acc(DocumentSection, [], [], [], [], 0), "| a", Src);
    }
    E2State();
    ScanSnoc(E2, "| a", Src);
  }

  lemma E4State()
    ensures Scan(E4, Src) == Acc(DataSection, [], ["| a"], [], [], 0)
  {
    assert Step(Acc(DocumentSection, [], ["| a"], [], [], 0), "#data", Src) == Acc(DataSection, [], ["| a"], [], [], 0) by {
      StepDataMarker(Acc(DocumentSection, [], ["| a"], [], [], 0), Src);
    }
    E3State();
    ScanSnoc(E3, "#data", Src);
  }

  lemma E5State()
    ensures Scan(E5, Src) == Acc(DataSection, ["x"], ["| a"], [], [], 0)
  {
    assert Step(Acc(DataSection, [], ["| a"], [], [], 0), "x", Src) == Acc(DataSection, ["x"], ["| a"], [], [], 0) by {
      StepText(Acc(DataSection, [], ["| a"], [], [], 0), "x", Src);
    }
    E4State();
    ScanSnoc(E4, "x", Src);
  }

  const S1: seq<string> := ["#data"]
  const S2: seq<string> := S1 + ["a"]
  const S3: seq<string> := S2 + ["#script-on"]
  const S4: seq<string> := S3 + ["b"]
  const S5: seq<string> := S4 + ["#document"]
  const S6: seq<string> := S5 + ["| c"]

  lemma S1State()
    ensures Scan(S1, Src) == Acc(DataSection, [], [], [], [], 0)
  {
    assert Step(Init, "#data", Src) == Acc(DataSection, [], [], [], [], 0) by {
      StepDataMarker(Init, Src);
    }
    assert [] + ["#data"] == S1;
    ScanSnoc([], "#data", Src);
  }

  lemma S2State()
    ensures Scan(S2, Src) == Acc(DataSection, ["a"], [], [], [], 0)
  {
    assert Step(Acc(DataSection, [], [], [], [], 0), "a", Src) == Acc(DataSection, ["a"], [], [], [], 0) by {
      StepText(Acc(DataSection, [], [], [], [], 0), "a", Src);
    }
    S1State();
    ScanSnoc(S1, "a", Src);
  }

  lemma S3State()
    ensures Scan(S3, Src) == Acc(NoSection, ["a"], [], [], [], 0)
  {
    assert Step(Acc(DataSection, ["a"], [], [], [], 0), "#script-on", Src) == Acc(NoSection, ["a"], [], [], [], 0) by {
      StepScriptOnMarker(Acc(DataSection, ["a"], [], [], [], 0), Src);
    }
    S2State();
    ScanSnoc(S2, "#script-on", Src);
  }

  lemma S4State()
    ensures Scan(S4, Src) == Acc(NoSection, ["a"], [], [], [], 0)
  {
    assert Step(Acc(NoSection, ["a"], [], [], [], 0), "b", Src) == Acc(NoSection, ["a"], [], [], [], 0) by {
      StepText(Acc(NoSection, ["a"], [], [], [], 0), "b", Src);
    }
    S3State();
    ScanSnoc(S3, "b", Src);
  }

  lemma S5State()
    ensures Scan(S5, Src) == Acc(DocumentSection, ["a"], [], [], [], 0)
  {
    assert Step(Acc(NoSection, ["a"], [], [], [], 0), "#document", Src) == Acc(DocumentSection, ["a"], [], [], [], 0) by {
      StepDocumentMarker(Acc(NoSection, ["a"], [], [], [], 0), Src);
    }
    S4State();
    ScanSnoc(S4, "#document", Src);
  }

  lemma S6State()
    ensures Scan(S6, Src) == Acc(DocumentSection, ["a"], ["| c"], [], [], 0)
  {
    assert Step(Acc(DocumentSection, ["a"], [], [], [], 0), "| c", Src) == Acc(DocumentSection, ["a"], ["| c"], [], [], 0) by {
      StepText(Acc(DocumentSection, ["a"], [], [], [], 0), "| c", Src);
    }
    S5State();
    ScanSnoc(S5, "| c", Src);
  }

  /** The fixture of the basic document test: one data line and a five-line document block. */
  const BasicData := "<html><head></head><body>Hi</body></html>"
  const BasicTree: seq<string> := ["| <!DOCTYPE html>", "| <html>", "|   <head>", "|   <body>", "|     \"Hi\""]

  const B1: seq<string> := ["#data"]
  const B2: seq<string> := B1 + [BasicData]
  const B3: seq<string> := B2 + ["#document"]
  const B4: seq<string> := B3 + ["| <!DOCTYPE html>"]
  const B5: seq<string> := B4 + ["| <html>"]
  const B6: seq<string> := B5 + ["|   <head>"]
  const B7: seq<string> := B6 + ["|   <body>"]
  const B8: seq<string> := B7 + ["|     \"Hi\""]

  lemma B1State()
    ensures Scan(B1, Src) == Acc(DataSection, [], [], [], [], 0)
  {
    assert Step(Init, "#data", Src) == Acc(DataSection, [], [], [], [], 0) by {
      StepDataMarker(Init, Src);
    }
    assert [] + ["#data"] == B1;
    ScanSnoc([], "#data", Src);
  }

  lemma B2State()
    ensures Scan(B2, Src) == Acc(DataSection, [BasicData], [], [], [], 0)
  {
    assert Step(Acc(DataSection, [], [], [], [], 0), BasicData, Src) == Acc(DataSection, [BasicData], [], [], [], 0) by {
      StepText(Acc(DataSection, [], [], [], [], 0), BasicData, Src);
    }
    B1State();
    ScanSnoc(B1, BasicData, Src);
  }

  lemma B3State()
    ensures Scan(B3, Src) == Acc(DocumentSection, [BasicData], [], [], [], 0)
  {
    assert Step(Acc(DataSection, [BasicData], [], [], [], 0), "#document", Src) == Acc(DocumentSection, [BasicData], [], [], [], 0) by {
      StepDocumentMarker(Acc(DataSection, [BasicData], [], [], [], 0), Src);
    }
    B2State();
    ScanSnoc(B2, "#document", Src);
  }

  lemma B4State()
    ensures Scan(B4, Src) == Acc(DocumentSection, [BasicData], ["| <!DOCTYPE html>"], [], [], 0)
  {
    assert Step(Acc(DocumentSection, [BasicData], [], [], [], 0), "| <!DOCTYPE html>", Src) == Acc(DocumentSection, [BasicData], ["| <!DOCTYPE html>"], [], [], 0) by {
      StepText(Acc(DocumentSection, [BasicData], [], [], [], 0), "| <!DOCTYPE html>", Src);
    }
    B3State();
    ScanSnoc(B3, "| <!DOCTYPE html>", Src);
  }

  lemma B5State()
    ensures Scan(B5, Src) == Acc(DocumentSection, [BasicData], ["| <!DOCTYPE html>", "| <html>"], [], [], 0)
  {
    assert Step(Acc(DocumentSection, [BasicData], ["| <!DOCTYPE html>"], [], [], 0), "| <html>", Src) == Acc(DocumentSection, [BasicData], ["| <!DOCTYPE html>", "| <html>"], [], [], 0) by {
      StepText(Acc(DocumentSection, [BasicData], ["| <!DOCTYPE html>"], [], [], 0), "| <html>", Src);
    }
    B4State();
    ScanSnoc(B4, "| <html>", Src);
  }

  lemma B6State()
    ensures Scan(B6, Src) == Acc(DocumentSection, [BasicData], ["| <!DOCTYPE html>", "| <html>", "|   <head>"], [], [], 0)
  {
    assert Step(Acc(DocumentSection, [BasicData], ["| <!DOCTYPE html>", "| <html>"], [], [], 0), "|   <head>", Src) == Acc(DocumentSection, [BasicData], ["| <!DOCTYPE html>", "| <html>", "|   <head>"], [], [], 0) by {
      StepText(Acc(DocumentSection, [BasicData], ["| <!DOCTYPE html>", "| <html>"], [], [], 0), "|   <head>", Src);
    }
    B5State();
    ScanSnoc(B5, "|   <head>", Src);
  }

  lemma B7State()
    ensures Scan(B7, Src) == Acc(DocumentSection, [BasicData], ["| <!DOCTYPE html>", "| <html>", "|   <head>", "|   <body>"], [], [], 0)
  {
    assert Step(Acc(DocumentSection, [BasicData], ["| <!DOCTYPE html>", "| <html>", "|   <head>"], [], [], 0), "|   <body>", Src) == Acc(DocumentSection, [BasicData], ["| <!DOCTYPE html>", "| <html>", "|   <head>", "|   <body>"], [], [], 0) by {
      StepText(Acc(DocumentSection, [BasicData], ["| <!DOCTYPE html>", "| <html>", "|   <head>"], [], [], 0), "|   <body>", Src);
    }
    B6State();
    ScanSnoc(B6, "|   <body>", Src);
  }

  lemma B8State()
    ensures Scan(B8, Src) == Acc(DocumentSection, [BasicData], ["| <!DOCTYPE html>", "| <html>", "|   <head>", "|   <body>", "|     \"Hi\""], [], [], 0)
  {
    assert Step(Acc(DocumentSection, [BasicData], ["| <!DOCTYPE html>", "| <html>", "|   <head>", "|   <body>"], [], [], 0), "|     \"Hi\"", Src) == Acc(DocumentSection, [BasicData], ["| <!DOCTYPE html>", "| <html>", "|   <head>", "|   <body>", "|     \"Hi\""], [], [], 0) by {
      StepText(Acc(DocumentSection, [BasicData], ["| <!DOCTYPE html>", "| <html>", "|   <head>", "|   <body>"], [], [], 0), "|     \"Hi\"", Src);
    }
    B7State();
    ScanSnoc(B7, "|     \"Hi\"", Src);
  }

  const P1: seq<string> := ["#data"]
  const P2: seq<string> := P1 + [ScriptLine]
  const P3: seq<string> := P2 + ["#document"]
  const P4: seq<string> := P3 + ["| <html>"]

  lemma P1State()
    ensures Scan(P1, Src) == Acc(DataSection, [], [], [], [], 0)
  {
    assert Step(Init, "#data", Src) == Acc(DataSection, [], [], [], [], 0) by {
      StepDataMarker(Init, Src);
    }
    assert [] + ["#data"] == P1;
    ScanSnoc([], "#data", Src);
  }

  lemma P2State()
    ensures Scan(P2, Src) == Acc(DataSection, [ScriptLine], [], [], [], 0)
  {
    assert Step(Acc(DataSection, [], [], [], [], 0), ScriptLine, Src) == Acc(DataSection, [ScriptLine], [], [], [], 0) by {
      StepText(Acc(DataSection, [], [], [], [], 0), ScriptLine, Src);
    }
    P1State();
    ScanSnoc(P1, ScriptLine, Src);
  }

  lemma P3State()
    ensures Scan(P3, Src) == Acc(DocumentSection, [ScriptLine], [], [], [], 0)
  {
    assert Step(Acc(DataSection, [ScriptLine], [], [], [], 0), "#document", Src) == Acc(DocumentSection, [ScriptLine], [], [], [], 0) by {
      StepDocumentMarker(Acc(DataSection, [ScriptLine], [], [], [], 0), Src);
    }
    P2State();
    ScanSnoc(P2, "#document", Src);
  }

  lemma P4State()
    ensures Scan(P4, Src) == Acc(DocumentSection, [ScriptLine], ["| <html>"], [], [], 0)
  {
    assert Step(Acc(DocumentSection, [ScriptLine], [], [], [], 0), "| <html>", Src) == Acc(DocumentSection, [ScriptLine], ["| <html>"], [], [], 0) by {
      StepText(Acc(DocumentSection, [ScriptLine], [], [], [], 0), "| <html>", Src);
    }
    P3State();
    ScanSnoc(P3, "| <html>", Src);
  }
}
