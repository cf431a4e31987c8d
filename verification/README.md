# html5lib-tests bench: fixture parser and run bookkeeping, in Dafny

This project models the two pieces of pure logic underneath the html5lib-tests browser
benchmark, and proves properties of them.

- **The `.dat` fixture parser** (`src/html5lib_tests_bench/html5lib_dat.py`). Module
  `DatParser` models the single pass over the lines of a fixture: the current section, the
  three line buffers, the `flush` closure and `_finalize_test`. The pass is a fold,
  `Scan(lines)`. Module `Decoding` models the byte-order-mark dispatch of
  `parse_html5lib_dat_file` with its Latin-1 fallback. Module `FixturePath` models the source-file name a test carries, which is
  `str(Path(path))` rather than the path as given.
- **The per-case classifier and run bookkeeping of `main`** (`src/html5lib_tests_bench/cli.py`).
  - Module `Loading` models `_load_tests`, which parses every named file in turn.
  - Module `TreeNormalize` models `_normalize_expected_tree`.
  - Module `Classify` models one case's outcome (skip, error, recorded, pass, fail) and the
    summary counters.
  - Module `BenchRun` models the rest: browser selection, the `--max-tests` cap, the
    per-browser `with` block and its outer `except` (the synthetic error record), the exit
    code and the truncation of failure diffs. How a case's scripting flag is read is a
    parameter. `RunBenchAsWritten` is `main` as written, where that read raises.
    `RunBench` is the corrected `main`, where the flag is given.
  - The browser harness is a `Backend` value of three functions: `launch` gives the version
    or an exception, `close` may raise, and `run` maps a request to a tree plus external
    URLs, or to an exception.
- Module `Text` holds the string functions both parts share: `'\n'` splitting and joining,
  `splitlines`, the strips and `lower`.
- Module `DatExamples` states and proves the parse of each of the five fixtures in the
  repository's parser tests: the basic document, the fragment context line, the fragment
  with a document block, two tests in one file, and the Latin-1 file. Each is stated over
  the fixture's text, or over its bytes for the Latin-1 one. Two behaviours those tests do
  not pin are stated too: the empty data block and `#script-on`. Module `FixtureStates`
  holds the steps of those proofs: the parser state after each line of each fixture, one
  small lemma per line.

Three behaviours of the code are worth knowing:

- **No scripting flag in the parser.** The fixture record has no scripting flag. The
  parser gives `#script-on` and `#script-off` no meaning: they close the current section like
  any unknown marker (`DatExamples.ScriptOnIgnored`). The classifier takes the scripting flag
  as a parameter, `scriptingOf`.
- **The missing attribute.** As written, `main` reads `t.scripting_enabled` (cli.py:128),
  which the slotted record does not have. See the Findings section.
- **The normaliser is not idempotent.** `"  \na"` normalises to `"\na"`, which normalises
  to `"a"` (`TreeNormalize.BlankEdgeLine`).

## Model

| member | source | states |
|---|---|---|
| DatParser.ContextOf | src/html5lib_tests_bench/html5lib_dat.py:33-34 | the fragment context exists only when there are fragment lines; it is the first fragment line trimmed and is never blank; it exists whenever that trimmed line is not blank |
| DatParser.ExpectedOf | src/html5lib_tests_bench/html5lib_dat.py:30-41 | an expected tree exists exactly when a document or fragment section captured lines, and it never starts or ends with a line feed |
| DatParser.ExpectedOfReference | src/html5lib_tests_bench/html5lib_dat.py:33-41 | the expected tree is the chosen lines joined with their leading and trailing empty lines dropped; the chosen lines are the document lines if any, else the fragment lines after the context line; a lone context line gives the empty tree, not none |
| DatParser.Finalize | src/html5lib_tests_bench/html5lib_dat.py:17-49 | no test exactly when the data buffer is empty; otherwise the test has the given source file and index, data equal to the data lines joined with `'\n'` verbatim, and the expected tree and context above |
| DatParser.Flush | src/html5lib_tests_bench/html5lib_dat.py:70-84 | the buffers are emptied and the section kept; one test is appended and the index advanced exactly when the data buffer was non-empty; that test is the one `Finalize` makes of the buffers with the current index; earlier tests are untouched |
| DatParser.ParseLines | src/html5lib_tests_bench/html5lib_dat.py:52-112 | tests are numbered 0..n-1 in order of appearance and all carry the given source file; there are at most as many tests as `#data` lines |
| DatParser.ParseDatText | src/html5lib_tests_bench/html5lib_dat.py:61-112 | a loop that applies `Step` to each line in turn, then flushes, yields the same tests as the fold over lines, numbered 0..n-1 with the given source file |
| DatParser.ScanGood | src/html5lib_tests_bench/html5lib_dat.py:63-108 | after any prefix of lines: the section is the one the last marker line opened; the next index equals the number of tests; tests plus any open data block never outnumber the `#data` lines; each buffered line is a content line of its section |
| DatParser.ScanSound | src/html5lib_tests_bench/html5lib_dat.py:86-108 | after any prefix of lines, every emitted test's data and expected-tree lines come from content lines of the matching sections |
| DatParser.ParseProvenance | src/html5lib_tests_bench/html5lib_dat.py:86-110 | every line of a test's data is a content line of a data section; every expected-tree line is empty or a content line of a document or fragment section; none of them starts with `#` |
| DatParser.NoDataMarkerNoTests | src/html5lib_tests_bench/html5lib_dat.py:86-112 | a fixture without a `#data` line has no tests |
| DatParser.LeadingNoiseDiscarded | src/html5lib_tests_bench/html5lib_dat.py:86-108 | lines before the first recognised marker (`#data`, `#document`, `#document-fragment`) do not change the parse, unknown markers such as `#errors` or `#script-on` among them |
| DatParser.ScanAppend | src/html5lib_tests_bench/html5lib_dat.py:86-108 | the pass depends on past lines only through its state: equal states stay equal when the same lines follow |
| DatParser.DataMarkerEmits | src/html5lib_tests_bench/html5lib_dat.py:91-95 | a `#data` line after a non-empty data block appends the test `Finalize` makes of the buffers, advances the index, empties every buffer and opens the data section |
| DatParser.EmptyDataBlockCarriesOver | src/html5lib_tests_bench/html5lib_dat.py:91-95 | a `#data` line after an empty data block emits nothing, and the document and fragment lines gathered so far stay buffered for the next test |
| DatParser.OnlyDataMarkerEmits | src/html5lib_tests_bench/html5lib_dat.py:86-108 | no line other than `#data` emits a test or moves the index, and no other marker touches a buffer |
| DatParser.ContentLineBuffered | src/html5lib_tests_bench/html5lib_dat.py:103-108 | a content line joins exactly the buffer of the section the last marker line before it opened (none if that marker opened none or there was none), and emits nothing |
| Text.SplitLinesJoin | src/html5lib_tests_bench/html5lib_dat.py:86 | splitting the line-feed join of lines that have no line feed and a non-empty last line gives those lines back |
| Text.JoinSplitOn | src/html5lib_tests_bench/cli.py:86 | joining the pieces of a line-feed split gives the text back |
| Text.SplitOnJoin | src/html5lib_tests_bench/cli.py:86 | splitting the join of line-feed-free lines gives the lines back |
| Text.StripNewlinesJoin | src/html5lib_tests_bench/html5lib_dat.py:39 | stripping line feeds from both ends of a joined text drops exactly the empty lines at both ends |
| Decoding.BomsExclusive | src/html5lib_tests_bench/html5lib_dat.py:120-122 | at most one byte-order mark opens the data |
| FixturePath.PathName | src/html5lib_tests_bench/html5lib_dat.py:115-133 | the recorded name is never empty and keeps the root of the path (none, `/`, or exactly `//`) |
| FixturePath.PathNameIdempotent | src/html5lib_tests_bench/html5lib_dat.py:115-133 | rendering a rendered name changes nothing |
| FixturePath.DotSlashDropped | src/html5lib_tests_bench/html5lib_dat.py:115-133 | `./name` is recorded as `name` |
| FixturePath.DoubleSlashCollapsed | src/html5lib_tests_bench/html5lib_dat.py:115-133 | `a//b` is recorded as `a/b` |
| FixturePath.EmptyPathIsDot | src/html5lib_tests_bench/html5lib_dat.py:115-133 | the empty path is recorded as `.` |
| Decoding.DecodeFixture | src/html5lib_tests_bench/html5lib_dat.py:118-131 | a UTF-8 mark selects UTF-8 of the rest; a UTF-16 mark selects UTF-16 of that byte order; without a mark, strict UTF-8 is tried and Latin-1 taken when it fails, so decoding then never fails |
| Decoding.Latin1RoundTrip | src/html5lib_tests_bench/html5lib_dat.py:127-131 | Latin-1 maps byte b to code point b, and encoding the decoded text gives the bytes back |
| Decoding.Latin1RoundTripText | src/html5lib_tests_bench/html5lib_dat.py:127-131 | decoding the Latin-1 encoding of byte-sized text gives the text back |
| Decoding.ParseFile | src/html5lib_tests_bench/html5lib_dat.py:115-133 | parsing a file fails exactly when decoding fails; otherwise its tests are those of the decoded text, numbered from 0, and carry `str(Path(path))` as source file |
| Loading.LoadTests | src/html5lib_tests_bench/cli.py:77-81 | loading succeeds exactly when every file decodes |
| Loading.LoadTestsSources | src/html5lib_tests_bench/cli.py:77-81 | every loaded test names one of the files, as `str(Path(..))` renders it, as its source |
| Loading.LoadWithAppend | src/html5lib_tests_bench/cli.py:77-81 | loading two lists of files one after the other is loading their concatenation |
| Loading.LoadTestsPerFile | src/html5lib_tests_bench/cli.py:77-81 | the tests of file k, as parsing that file alone gives them, sit in the loaded list right after the tests of the files before it |
| Loading.LoadTestsIndexPerFile | src/html5lib_tests_bench/cli.py:77-81 | the index restarts with every file: the tests of file k are numbered from 0 in the loaded list and all name file k |
| TreeNormalize.NormalizeTree | src/html5lib_tests_bench/cli.py:84-86 | no line of a normal form ends in whitespace |
| TreeNormalize.NormalizeReference | src/html5lib_tests_bench/cli.py:84-86 | the normal form is the text cut at every line feed, without the empty lines at both ends, each line right-stripped, rejoined |
| TreeNormalize.LeadingNewlineIgnored | src/html5lib_tests_bench/cli.py:84-86 | a leading line feed does not change the normal form |
| TreeNormalize.TrailingNewlineIgnored | src/html5lib_tests_bench/cli.py:84-86 | a trailing line feed does not change the normal form |
| TreeNormalize.TrailingSpaceIgnored | src/html5lib_tests_bench/cli.py:84-86 | texts whose lines differ only in trailing whitespace, with empty lines at the same places, have the same normal form |
| TreeNormalize.TwoLines | src/html5lib_tests_bench/cli.py:84-86 | a two-line tree loses an empty first line; a non-empty first line is kept right-stripped |
| TreeNormalize.BlankEdgeLine | src/html5lib_tests_bench/cli.py:84-86 | a whitespace-only first line survives one pass as an empty line and is removed by the next: the normaliser is not idempotent, and trailing whitespace can matter |
| Classify.ErrorText | src/html5lib_tests_bench/cli.py:186 | the error text is the exception's type name, a colon and a space, then its message |
| Classify.CallFor | src/html5lib_tests_bench/cli.py:141-145 | a fragment request exactly when the context is truthy, with that context; otherwise a document request with scripting off; the markup is the case's data |
| Classify.ClassifyCase | src/html5lib_tests_bench/cli.py:133-187 | skip exactly for scripted cases, with no request; otherwise exactly one request; error exactly when it raises, carrying its text; otherwise the tree is kept, external URLs only when there are any; recorded exactly when not comparing or nothing is expected; pass exactly when the normal forms agree; fail keeps the normalised expected tree |
| Classify.ExpectedTreePasses | src/html5lib_tests_bench/cli.py:151-158 | a browser answering the expected tree, or the expected tree between line feeds, passes the case |
| Classify.TallySnoc | src/html5lib_tests_bench/cli.py:133-187 | bumping the matching counter per outcome keeps the summary equal to the tally of all outcomes so far |
| Classify.TallyAccountsForAll | src/html5lib_tests_bench/cli.py:133-187 | every outcome is counted exactly once, except recorded ones, which are counted nowhere |
| Classify.CountKindPositive | src/html5lib_tests_bench/cli.py:252-254 | a counter is positive exactly when an outcome of its kind is present |
| BenchRun.BrowsersFromArg | src/html5lib_tests_bench/cli.py:71-74 | `all` gives chromium, firefox and webkit in that order; any other argument gives just itself; no browser is named twice |
| BenchRun.Capped | src/html5lib_tests_bench/cli.py:112-120 | limit 0 runs all cases; a positive limit runs the first min(limit, n) in order; a negative limit runs none |
| BenchRun.RunCases | src/html5lib_tests_bench/cli.py:118-198 | one record per case in order, each with the case's fields and its classified outcome; the counters equal the tally of the records; an exception reading a case's fields stops the loop at that case |
| BenchRun.RunBrowserWith | src/html5lib_tests_bench/cli.py:114-215 | a failed launch gives version "" and one synthetic error record; after a launch the version stays and the case records are kept; an escaping exception (the one from closing wins) adds one synthetic record with its text; counters always equal the tally of the records |
| BenchRun.RunBrowserRecords | src/html5lib_tests_bench/cli.py:199-215 | every record carries the browser and its version; a browser error is recorded exactly when the last record has no case fields, and no other record lacks them |
| BenchRun.RunBrowser | src/html5lib_tests_bench/cli.py:114-215 | after a launch, one record per capped case, plus one synthetic record exactly when closing raises; a failed launch gives one synthetic record |
| BenchRun.RunBrowserCases | src/html5lib_tests_bench/cli.py:118-198 | after a launch the records open with every capped case's record, in order |
| BenchRun.AsWrittenOnlyErrors | src/html5lib_tests_bench/cli.py:122-129 | as written, a browser that launches and has a case to run records no case at all, only one synthetic error and an error count of one |
| BenchRun.AsWrittenLosesCases | src/html5lib_tests_bench/cli.py:122-129 | the first record of the corrected run belongs to a case; that of the as-written run does not |
| BenchRun.AnyCounter | src/html5lib_tests_bench/cli.py:252-254 | some browser's error (or fail) counter is positive exactly when some record has that outcome |
| BenchRun.RunBenchWith | src/html5lib_tests_bench/cli.py:93-256 | for any way of reading the scripting flag: exit 1 with no browser run exactly when no tests loaded; otherwise each selected browser is run in turn; exit 2 exactly when some record is an error, else 3 exactly when comparing and some record failed, else 0 |
| BenchRun.RunBench | src/html5lib_tests_bench/cli.py:93-256 | the corrected `main`, with each case's scripting flag given: the same exit codes, over the corrected per-browser runs |
| BenchRun.AsWrittenExitsTwo | src/html5lib_tests_bench/cli.py:112-129 | as written, any run with tests and a cap that is not negative exits 2, because the first browser records an error whether or not it launches |
| BenchRun.EmitDiff | src/html5lib_tests_bench/cli.py:175-182 | 0 prints the whole diff; a positive limit prints at most that many lines, and the marker exactly when lines remained; a negative limit prints only the marker, and nothing for an empty diff |
| DatExamples.BasicDocumentTest | tests/test_dat_parser.py:10-30 | the basic document fixture's text parses to exactly one test: index 0, no fragment context, the `<html>...` line as its data, and the five `\|` lines joined by line feeds as its expected tree |
| DatExamples.TwoDocumentTests | tests/test_dat_parser.py:76-93 | the two-case fixture's text, with its blank separating line, gives data `One` and `Two`, indices 0 and 1, both expecting `\| <html>` |
| DatExamples.FragmentContextLine | tests/test_dat_parser.py:33-50 | the fixture's text parses to one test whose context is `div`; the expected tree is the rest of the fragment block |
| DatExamples.FragmentWithDocumentBlock | tests/test_dat_parser.py:53-73 | the fixture's text parses to one test; its context `svg path` comes from the fragment block, the expected tree from the document block |
| DatExamples.EmptyDataBlockExample | src/html5lib_tests_bench/html5lib_dat.py:91-95 | an empty first data block gives no test, and its document block goes to the next test |
| DatExamples.ScriptOnIgnored | src/html5lib_tests_bench/html5lib_dat.py:96-101 | lines after `#script-on` are discarded, and the test carries no scripting flag |
| DatExamples.Latin1FallbackFixture | tests/test_dat_parser.py:96-104 | any strict UTF-8 decoder (one that rejects the bytes 0xF5 to 0xFF) rejects a fixture holding a raw 0xFE byte; the fixture then decodes as Latin-1, and its one test's data holds U+00FE |

## Left out

- The browser harness (`harness.py`) is not part of this model. That covers the Playwright lifecycle, script loading, page evaluation and network routing. It appears only as the abstract `Backend`: a reply depends on the browser and the request alone.
- Printing to stdout and stderr, tracebacks, `argparse`, the JSON output, `time.perf_counter` and the Playwright version string are I/O or clock reads, and are left out.
- A fail whose stderr report raises is left out. The inner `except` would then mark the same record as an error after the fail counter was already bumped. This depends on stderr I/O, which is not modelled.
- The internals of `difflib.unified_diff` are left out. The diff is an opaque list of lines, and only the truncation loop is modelled. The blank line printed after each diff is output only.
- Decoding.DecodeFixture: the UTF-8 and UTF-16 codecs are parameters (text, or none where Python raises). Only the mark dispatch and Latin-1 are concrete.
- Decoding.ParseFile: the file's bytes are a parameter. An `OSError` from `p.read_bytes()` (a missing or unreadable file) is I/O and is not modelled; in the program it escapes `_load_tests` and ends `main`.
- FixturePath.PathName: it models POSIX `pathlib` only. Windows drive letters and backslashes are not modelled.
- `str.splitlines`, `strip`, `rstrip` and `lower` are modelled on `'\n'` only, with ASCII whitespace and ASCII case. Python's other line breaks and Unicode whitespace and case are not modelled.
- TreeNormalize.TrailingSpaceIgnored: it requires empty lines to sit at the same places in both texts. Without that proviso the promise fails: a whitespace-only line at either end is kept as an empty line (`TreeNormalize.BlankEdgeLine`).
- Idempotence of the normaliser is not claimed, because the code does not have it.
- A scripting default, and `#script-on` or `#script-off` setting a per-test flag, are left out, because the parser has no such support.

## Findings

| source | as written | input that shows it | evidently intended | confidence | as-written member | corrected member |
|---|---|---|---|---|---|---|
| src/html5lib_tests_bench/cli.py:128 | each case's record reads `t.scripting_enabled`. The slotted test record has no such field, so this raises `AttributeError` outside the inner `try`. The outer `except` turns the whole browser into one synthetic error record | any fixture with one test, a browser that launches, and `--max-tests 0` | read the case's scripting flag, record each case and classify it (skip when scripted) | high, not executed | BenchRun.AsWrittenOnlyErrors | BenchRun.RunBrowser |
