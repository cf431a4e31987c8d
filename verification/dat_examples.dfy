/** The parses of the fixtures of the repository's parser tests (tests/test_dat_parser.py),
    each stated over the fixture's text as the test hands it to the parser, plus the
    empty-data-block and `#script-on` behaviours. A fixture's text is what
    `textwrap.dedent(...).strip("\n")` leaves: its lines joined by line feeds. */
module DatExamples {
  import opened Wrappers
  import opened Text
  import opened DatParser
  import opened Decoding
  import opened FixturePath
  import opened FixtureStates

  // ---------------------------------------------------------------- from text to lines

  /** A fixture's text is read back as the lines it was joined from. */
  lemma ParseJoined(lines: seq<string>, src: string)
    requires NoSep(lines, '\n') && |lines| > 0 && lines[|lines| - 1] != ""
    ensures ParseText(Join(lines, '\n'), src) == ParseLines(lines, src)
  {
    SplitLinesJoin(lines);
  }

  // ---------------------------------------------------------------- flushing

  /** A one-line data block with a one-line document block gives one test whose data
      and expected tree are those lines. */
  lemma FlushOneDocumentLine(a: Acc, src: string, d: string, e: string)
    requires a.dataLines == [d] && a.documentLines == [e] && a.fragmentLines == []
    requires |e| > 0 && e[0] != '\n' && e[|e| - 1] != '\n'
    ensures Flush(a, src).tests == a.tests + [DatTest(src, a.testIndex, d, Some(e), None)]
  {
    assert RStripChar(e, '\n') == e;
    assert LStripChar(e, '\n') == e;
  }

  /** One data line and a document block whose first and last lines are not empty: the
    expected tree is the block joined as it is. */
  lemma FlushDocumentBlock(a: Acc, src: string, d: string, es: seq<string>)
    requires a.dataLines == [d] && a.documentLines == es && a.fragmentLines == []
    requires NoSep(es, '\n') && |es| > 0 && es[0] != "" && es[|es| - 1] != ""
    ensures Flush(a, src).tests == a.tests + [DatTest(src, a.testIndex, d, Some(Join(es, '\n')), None)]
  {
    StripNewlinesJoin(es);
    assert DropTrailingEmpty(es) == es;
    assert DropLeadingEmpty(es) == es;
    assert Join([d], '\n') == d;
  }

  // ---------------------------------------------------------------- the fixtures

  /** The fixture of `test_parse_basic_document_test`. */
  const BasicText: string :=
    "#data" + "\n" + BasicData + "\n" + "#document" + "\n" + "| <!DOCTYPE html>" + "\n" + "| <html>" + "\n" + "|   <head>" + "\n" + "|   <body>" + "\n" + "|     \"Hi\""

  lemma BasicJoined()
    ensures BasicText == Join(B8, '\n')
  {
    assert Join(B1, '\n') == "#data";
    JoinSnoc(B1, BasicData, '\n');
    JoinSnoc(B2, "#document", '\n');
    JoinSnoc(B3, "| <!DOCTYPE html>", '\n');
    JoinSnoc(B4, "| <html>", '\n');
    JoinSnoc(B5, "|   <head>", '\n');
    JoinSnoc(B6, "|   <body>", '\n');
    JoinSnoc(B7, "|     \"Hi\"", '\n');
  }

  lemma BasicNoSep()
    ensures NoSep(B8, '\n')
  {
    assert NoSep(B1, '\n');
    NoSepSnoc(B1, BasicData);
    NoSepSnoc(B2, "#document");
    NoSepSnoc(B3, "| <!DOCTYPE html>");
    NoSepSnoc(B4, "| <html>");
    NoSepSnoc(B5, "|   <head>");
    NoSepSnoc(B6, "|   <body>");
    NoSepSnoc(B7, "|     \"Hi\"");
  }

  lemma BasicLines()
    ensures BasicText == Join(B8, '\n') && NoSep(B8, '\n')
  {
    BasicJoined();
    BasicNoSep();
  }

  /** One test: index 0, no fragment context, the data line as its data and the five
      `|` lines joined by line feeds as its expected tree. */
  lemma BasicDocumentTest()
    ensures ParseText(BasicText, Src) == [DatTest(Src, 0, BasicData, Some(Join(BasicTree, '\n')), None)]
  {
    BasicLines();
    ParseJoined(B8, Src);
    B8State();
    ParseAfter(B8, Src, Acc(DocumentSection, [BasicData], BasicTree, [], [], 0));
    BasicDocumentTestFlushed();
  }

  lemma BasicDocumentTestFlushed()
    ensures Flush(Acc(DocumentSection, [BasicData], BasicTree, [], [], 0), Src).tests
            == [DatTest(Src, 0, BasicData, Some(Join(BasicTree, '\n')), None)]
  {
    BasicNoSep();
    assert BasicTree == B8[3..];
    NoSepSlice(B8, 3, 8, '\n');
    FlushDocumentBlock(Acc(DocumentSection, [BasicData], BasicTree, [], [], 0), Src, BasicData, BasicTree);
  }

  /** The fixture of `test_parse_multiple_tests`; a blank line separates the two tests. */
  const MultipleText: string :=
    "#data" + "\n" + "One" + "\n" + "#document" + "\n" + "| <html>" + "\n" + "" + "\n" + "#data" + "\n" + "Two" + "\n" + "#document" + "\n" + "| <html>"

  lemma MultipleJoined()
    ensures MultipleText == Join(M9, '\n')
  {
    assert Join(M1, '\n') == "#data";
    JoinSnoc(M1, "One", '\n');
    JoinSnoc(M2, "#document", '\n');
    JoinSnoc(M3, "| <html>", '\n');
    JoinSnoc(M4, "", '\n');
    JoinSnoc(M5, "#data", '\n');
    JoinSnoc(M6, "Two", '\n');
    JoinSnoc(M7, "#document", '\n');
    JoinSnoc(M8, "| <html>", '\n');
  }

  lemma MultipleNoSep()
    ensures NoSep(M9, '\n')
  {
    assert NoSep(M1, '\n');
    NoSepSnoc(M1, "One");
    NoSepSnoc(M2, "#document");
    NoSepSnoc(M3, "| <html>");
    NoSepSnoc(M4, "");
    NoSepSnoc(M5, "#data");
    NoSepSnoc(M6, "Two");
    NoSepSnoc(M7, "#document");
    NoSepSnoc(M8, "| <html>");
  }

  lemma MultipleLines()
    ensures MultipleText == Join(M9, '\n') && NoSep(M9, '\n')
  {
    MultipleJoined();
    MultipleNoSep();
  }

  /** The fixture of `test_parse_fragment_test_context_line`. */
  const ContextLineText: string :=
    "#data" + "\n" + "<b>Hi</b>" + "\n" + "#document-fragment" + "\n" + "div" + "\n" + "| <b>" + "\n" + "|   \"Hi\""

  lemma ContextLineJoined()
    ensures ContextLineText == Join(F6, '\n')
  {
    assert Join(F1, '\n') == "#data";
    JoinSnoc(F1, "<b>Hi</b>", '\n');
    JoinSnoc(F2, "#document-fragment", '\n');
    JoinSnoc(F3, "div", '\n');
    JoinSnoc(F4, "| <b>", '\n');
    JoinSnoc(F5, "|   \"Hi\"", '\n');
  }

  lemma ContextLineNoSep()
    ensures NoSep(F6, '\n')
  {
    assert NoSep(F1, '\n');
    NoSepSnoc(F1, "<b>Hi</b>");
    NoSepSnoc(F2, "#document-fragment");
    NoSepSnoc(F3, "div");
    NoSepSnoc(F4, "| <b>");
    NoSepSnoc(F5, "|   \"Hi\"");
  }

  lemma ContextLineLines()
    ensures ContextLineText == Join(F6, '\n') && NoSep(F6, '\n')
  {
    ContextLineJoined();
    ContextLineNoSep();
  }

  /** The fixture of `test_parse_fragment_context_with_expected_in_document_section`. */
  const FragmentDocumentText: string :=
    "#data" + "\n" + "<nobr>X" + "\n" + "#document-fragment" + "\n" + "svg path" + "\n" + "#document" + "\n" + "| <nobr>" + "\n" + "|   \"X\""

  lemma FragmentDocumentJoined()
    ensures FragmentDocumentText == Join(G7, '\n')
  {
    assert Join(G1, '\n') == "#data";
    JoinSnoc(G1, "<nobr>X", '\n');
    JoinSnoc(G2, "#document-fragment", '\n');
    JoinSnoc(G3, "svg path", '\n');
    JoinSnoc(G4, "#document", '\n');
    JoinSnoc(G5, "| <nobr>", '\n');
    JoinSnoc(G6, "|   \"X\"", '\n');
  }

  lemma FragmentDocumentNoSep()
    ensures NoSep(G7, '\n')
  {
    assert NoSep(G1, '\n');
    NoSepSnoc(G1, "<nobr>X");
    NoSepSnoc(G2, "#document-fragment");
    NoSepSnoc(G3, "svg path");
    NoSepSnoc(G4, "#document");
    NoSepSnoc(G5, "| <nobr>");
    NoSepSnoc(G6, "|   \"X\"");
  }

  lemma FragmentDocumentLines()
    ensures FragmentDocumentText == Join(G7, '\n') && NoSep(G7, '\n')
  {
    FragmentDocumentJoined();
    FragmentDocumentNoSep();
  }

  /** Two tests with data `One` and `Two`, indices 0 and 1, each expecting `| <html>`. */
  lemma TwoDocumentTests()
    ensures ParseText(MultipleText, Src)
            == [DatTest(Src, 0, "One", Some("| <html>"), None), DatTest(Src, 1, "Two", Some("| <html>"), None)]
  {
    MultipleLines();
    ParseJoined(M9, Src);
    M9State();
    ParseAfter(M9, Src, Acc(DocumentSection, ["Two"], ["| <html>"], [], [FirstOfTwo], 1));
    TwoDocumentTestsFlushed();
  }

  lemma TwoDocumentTestsFlushed()
    ensures Flush(Acc(DocumentSection, ["Two"], ["| <html>"], [], [FirstOfTwo], 1), Src).tests
            == [DatTest(Src, 0, "One", Some("| <html>"), None), DatTest(Src, 1, "Two", Some("| <html>"), None)]
  {
    FlushOneDocumentLine(Acc(DocumentSection, ["Two"], ["| <html>"], [], [FirstOfTwo], 1), Src, "Two", "| <html>");
  }

  /** The context is the first fragment line; the expected tree is the rest of the
      fragment block. */
  lemma FragmentContextLine()
    ensures ParseText(ContextLineText, Src)
            == [DatTest(Src, 0, "<b>Hi</b>", Some("| <b>\n|   \"Hi\""), Some("div"))]
  {
    ContextLineLines();
    ParseJoined(F6, Src);
    F6State();
    ParseAfter(F6, Src, Acc(FragmentSection, ["<b>Hi</b>"], [], ["div", "| <b>", "|   \"Hi\""], [], 0));
    FragmentContextLineFlushed();
  }

  lemma FragmentContextLineFlushed()
    ensures Flush(Acc(FragmentSection, ["<b>Hi</b>"], [], ["div", "| <b>", "|   \"Hi\""], [], 0), Src).tests
            == [DatTest(Src, 0, "<b>Hi</b>", Some("| <b>\n|   \"Hi\""), Some("div"))]
  {
    PlainWord("div");
    var tail: seq<string> := ["| <b>", "|   \"Hi\""];
    assert ["div", "| <b>", "|   \"Hi\""][1..] == tail;
    assert Join(tail, '\n') == "| <b>\n|   \"Hi\"";
    assert RStripChar("| <b>\n|   \"Hi\"", '\n') == "| <b>\n|   \"Hi\"";
    assert LStripChar("| <b>\n|   \"Hi\"", '\n') == "| <b>\n|   \"Hi\"";
  }

  /** With both blocks, the context comes from the fragment block and the expected tree
      from the document block. */
  lemma FragmentWithDocumentBlock()
    ensures ParseText(FragmentDocumentText, Src)
            == [DatTest(Src, 0, "<nobr>X", Some("| <nobr>\n|   \"X\""), Some("svg path"))]
  {
    FragmentDocumentLines();
    ParseJoined(G7, Src);
    G7State();
    ParseAfter(G7, Src, Acc(DocumentSection, ["<nobr>X"], ["| <nobr>", "|   \"X\""], ["svg path"], [], 0));
    FragmentWithDocumentBlockFlushed();
  }

  lemma FragmentWithDocumentBlockFlushed()
    ensures Flush(Acc(DocumentSection, ["<nobr>X"], ["| <nobr>", "|   \"X\""], ["svg path"], [], 0), Src).tests
            == [DatTest(Src, 0, "<nobr>X", Some("| <nobr>\n|   \"X\""), Some("svg path"))]
  {
    assert StripSpace("svg path") == "svg path" by {
      assert RStripSpace("svg path") == "svg path";
      assert LStripSpace("svg path") == "svg path";
    }
    assert "| <nobr>\n|   \"X\"" == "| <nobr>" + ['\n'] + "|   \"X\"";
    FlushTwoDocumentLines(Acc(DocumentSection, ["<nobr>X"], ["| <nobr>", "|   \"X\""], ["svg path"], [], 0), Src,
                          "<nobr>X", "| <nobr>", "|   \"X\"", "svg path");
  }

  /** Flushing one data line, two document lines and a fragment block whose first line is
      already trimmed. */
  lemma FlushTwoDocumentLines(a: Acc, src: string, d: string, e1: string, e2: string, c: string)
    requires a.dataLines == [d] && a.documentLines == [e1, e2] && a.fragmentLines == [c]
    requires |e1| > 0 && e1[0] != '\n' && |e2| > 0 && e2[|e2| - 1] != '\n'
    requires StripSpace(c) == c && c != ""
    ensures Flush(a, src).tests == a.tests + [DatTest(src, a.testIndex, d, Some(e1 + ['\n'] + e2), Some(c))]
  {
    var j := e1 + ['\n'] + e2;
    assert Join([e1, e2], '\n') == j by {
      JoinCons(e1, [e2], '\n');
      assert [e1] + [e2] == [e1, e2];
    }
    assert RStripChar(j, '\n') == j;
    assert LStripChar(j, '\n') == j;
    assert Join([d], '\n') == d;
  }

  /** The first `#data` block is empty: no test for it, and its document block goes to
      the next test. */
  lemma EmptyDataBlockExample()
    ensures ParseLines(E5, Src)
            == [DatTest(Src, 0, "x", Some("| a"), None)]
  {
    E5State();
    ParseAfter(E5, Src, Acc(DataSection, ["x"], ["| a"], [], [], 0));
    EmptyDataBlockExampleFlushed();
  }

  lemma EmptyDataBlockExampleFlushed()
    ensures Flush(Acc(DataSection, ["x"], ["| a"], [], [], 0), Src).tests
            == [DatTest(Src, 0, "x", Some("| a"), None)]
  {
    FlushOneDocumentLine(Acc(DataSection, ["x"], ["| a"], [], [], 0), Src, "x", "| a");
  }

  /** The lines after `#script-on` are discarded and the test carries no scripting flag. */
  lemma ScriptOnIgnored()
    ensures ParseLines(S6, Src)
            == [DatTest(Src, 0, "a", Some("| c"), None)]
  {
    S6State();
    ParseAfter(S6, Src, Acc(DocumentSection, ["a"], ["| c"], [], [], 0));
    ScriptOnIgnoredFlushed();
  }

  lemma ScriptOnIgnoredFlushed()
    ensures Flush(Acc(DocumentSection, ["a"], ["| c"], [], [], 0), Src).tests
            == [DatTest(Src, 0, "a", Some("| c"), None)]
  {
    FlushOneDocumentLine(Acc(DocumentSection, ["a"], ["| c"], [], [], 0), Src, "a", "| c");
  }

  // ---------------------------------------------------------------- a fixture that is not UTF-8

  /** The text of the fixture: `#data`, the script line, `#document`, `| <html>`, each
      ended by a line feed. */
  const EncodingText := "#data\n" + ScriptLine + "\n#document\n| <html>\n"

  /** Its bytes: every character is one byte, among them a raw 0xFE. */
  const EncodingBytes: seq<byte> := Latin1Encode(EncodingText)

  lemma EncodingBytesFacts()
    ensures EncodingBytes[0] == 0x23 && EncodingBytes[21] == 0xFE
    ensures Latin1Decode(EncodingBytes) == EncodingText
  {
    Latin1RoundTripText(EncodingText);
  }

  /** Four lines, each ended by a line feed, split back into the four lines. */
  lemma SplitFourLines(w: string, x: string, y: string, z: string)
    requires '\n' !in w && '\n' !in x && '\n' !in y && '\n' !in z
    ensures SplitLines((w + ['\n'] + (x + ['\n'] + (y + ['\n'] + z)))  + ['\n']) == [w, x, y, z]
  {
    var t2 := y + ['\n'] + z;
    var t1 := x + ['\n'] + t2;
    var t0 := w + ['\n'] + t1;
    assert (t0 + ['\n'])[..|t0|] == t0;
    SplitOnNoSep(z, '\n');
    SplitOnPiece(y, '\n', z);
    SplitOnPiece(x, '\n', t2);
    SplitOnPiece(w, '\n', t1);
  }

  lemma EncodingLines()
    ensures SplitLines(EncodingText) == P4
  {
    assert '\n' !in ScriptLine by {
      forall i | 0 <= i < |ScriptLine| ensures ScriptLine[i] != '\n' {
      }
    }
    assert EncodingText == ("#data" + ['\n'] + (ScriptLine + ['\n'] + ("#document" + ['\n'] + "| <html>"))) + ['\n'];
    SplitFourLines("#data", ScriptLine, "#document", "| <html>");
    assert P4 == ["#data", ScriptLine, "#document", "| <html>"];
  }

  lemma EncodingDecodes(codecs: Codecs)
    requires StrictUtf8(codecs)
    ensures DecodeFixture(EncodingBytes, codecs) == Success(EncodingText)
  {
    EncodingBytesFacts();
    assert !StartsWith(EncodingBytes, BomUtf8) && !StartsWith(EncodingBytes, BomUtf16Le)
      && !StartsWith(EncodingBytes, BomUtf16Be);
  }

  lemma EncodingParses()
    ensures ParseText(EncodingText, Src) == [DatTest(Src, 0, ScriptLine, Some("| <html>"), None)]
  {
    EncodingLines();
    P4State();
    ParseAfter(P4, Src, Acc(DocumentSection, [ScriptLine], ["| <html>"], [], [], 0));
    EncodingFlushed();
  }

  lemma EncodingFlushed()
    ensures Flush(Acc(DocumentSection, [ScriptLine], ["| <html>"], [], [], 0), Src).tests
            == [DatTest(Src, 0, ScriptLine, Some("| <html>"), None)]
  {
    FlushOneDocumentLine(Acc(DocumentSection, [ScriptLine], ["| <html>"], [], [], 0), Src, ScriptLine, "| <html>");
  }

  /** A fixture holding a raw 0xFE byte is not UTF-8, so any strict UTF-8 decoder
      rejects it; it decodes as Latin-1 and its one test's data holds U+00FE. */
  lemma Latin1FallbackFixture(codecs: Codecs, data: seq<byte>)
    requires data == EncodingBytes && StrictUtf8(codecs)
    ensures ParseFile(Src, data, codecs) == Success([DatTest(Src, 0, ScriptLine, Some("| <html>"), None)])
  {
    EncodingDecodes(codecs);
    EncodingParses();
    ParseDecoded(Src, data, codecs, EncodingText);
    PlainFileName(Src);
  }
}
