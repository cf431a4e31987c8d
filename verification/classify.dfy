/** The per-case part of `main` (src/html5lib_tests_bench/cli.py): one test case run
    in one browser, classified as skip, error, recorded, pass or fail, and the summary
    counters the outcomes feed.

    The browser harness is abstract: `run` maps a browser name and a request to the
    harness's `BrowserResult` or to the exception it raises. The harness clears its
    list of external requests before every request, so a reply depends on the request
    alone. */
module Classify {
  import opened Wrappers
  import opened DatParser
  import opened TreeNormalize

  /** A raised Python exception: the name of its type and its message. */
  datatype Exception = Exception(typeName: string, message: string)

  /** The text an error record carries: type name, colon, space, message. */
  function ErrorText(e: Exception): (r: string)
    ensures |r| == |e.typeName| + 2 + |e.message|
    ensures r[..|e.typeName|] == e.typeName
    ensures r[|e.typeName|..|e.typeName| + 2] == ": "
    ensures r[|e.typeName| + 2..] == e.message
  {
    e.typeName + ": " + e.message
  }

  /** What the harness returns: the serialised tree and the external URLs the page tried
      to load. */
  datatype BrowserResult = BrowserResult(tree: string, externalRequests: seq<string>)

  /** A request to the harness: parse a whole document, or a fragment in a context. */
  datatype Call =
    | DocumentCall(html: string, scriptingEnabled: bool)
    | FragmentCall(context: string, html: string)

  /** One browser engine behind the harness: entering the harness launches it (giving its
      version), leaving closes it, and in between it answers requests. */
  datatype Backend = Backend(
    launch: string -> Result<string, Exception>,
    close: string -> Option<Exception>,
    run: (string, Call) -> Result<BrowserResult, Exception>)

  /** Python truthiness of `fragment_context`: present and not the empty string. */
  predicate Truthy(context: Option<string>) {
    context.Some? && context.value != ""
  }

  /** The one request a case that is not skipped makes. */
  function CallFor(t: DatTest): (c: Call)
    ensures c.html == t.data
    ensures c.FragmentCall? <==> Truthy(t.fragmentContext)
    ensures c.FragmentCall? ==> c.context == t.fragmentContext.value
    // reached only when scripting is off, so that is the flag the document call passes
    ensures c.DocumentCall? ==> !c.scriptingEnabled
  {
    if Truthy(t.fragmentContext) then FragmentCall(t.fragmentContext.value, t.data)
    else DocumentCall(t.data, false)
  }

  datatype Outcome =
    | Skip(reason: string)
    | Error(message: string)
    | Recorded(actualTree: string, externalRequests: Option<seq<string>>)
    | Pass(actualTree: string, externalRequests: Option<seq<string>>)
    | Fail(actualTree: string, externalRequests: Option<seq<string>>, expectedTree: string)

  /** The requests a case made and the outcome it got. */
  datatype Classified = Classified(calls: seq<Call>, outcome: Outcome)

  /** The external requests as the record keeps them: only when there are any. */
  function Attached(requests: seq<string>): Option<seq<string>> {
    if |requests| > 0 then Some(requests) else None
  }

  /** One case in one browser; `scripting` is the case's scripting flag and `compare`
      is false under `--no-compare`. */
  function ClassifyCase(b: Backend, browser: string, t: DatTest, scripting: bool, compare: bool): (r: Classified)
    // a scripted case is skipped without asking the browser
    ensures r.outcome.Skip? <==> scripting
    ensures r.outcome.Skip? ==> r.outcome.reason == "scripting_enabled" && r.calls == []
    // any other case makes exactly one request
    ensures !scripting ==> r.calls == [CallFor(t)]
    // a raised exception becomes an error carrying its text
    ensures r.outcome.Error? <==> !scripting && b.run(browser, CallFor(t)).Failure?
    ensures r.outcome.Error? ==> r.outcome.message == ErrorText(b.run(browser, CallFor(t)).error)
    // otherwise the actual tree is kept, the external requests only when there are any
    ensures r.outcome.Recorded? || r.outcome.Pass? || r.outcome.Fail? ==>
              var reply := b.run(browser, CallFor(t));
              reply.Success? && r.outcome.actualTree == reply.value.tree &&
              (r.outcome.externalRequests.Some? <==> |reply.value.externalRequests| > 0) &&
              (r.outcome.externalRequests.Some? ==> r.outcome.externalRequests.value == reply.value.externalRequests)
    // nothing to compare with, or comparison turned off: the tree is only recorded
    ensures r.outcome.Recorded? <==>
              !scripting && b.run(browser, CallFor(t)).Success? && (!compare || t.expectedTree.None?)
    // pass and fail compare the normal forms of the two trees
    ensures r.outcome.Pass? <==>
              !scripting && b.run(browser, CallFor(t)).Success? && compare && t.expectedTree.Some? &&
              NormalizeTree(b.run(browser, CallFor(t)).value.tree) == NormalizeTree(t.expectedTree.value)
    ensures r.outcome.Fail? ==>
              compare && t.expectedTree.Some? &&
              r.outcome.expectedTree == NormalizeTree(t.expectedTree.value) &&
              NormalizeTree(r.outcome.actualTree) != r.outcome.expectedTree
  {
    if scripting then Classified([], Skip("scripting_enabled"))
    else
      var call := CallFor(t);
      match b.run(browser, call)
      case Failure(e) => Classified([call], Error(ErrorText(e)))
      case Success(res) =>
        var ext := Attached(res.externalRequests);
        if !compare || t.expectedTree.None? then Classified([call], Recorded(res.tree, ext))
        else
          var expected := NormalizeTree(t.expectedTree.value);
          var actual := NormalizeTree(res.tree);
          if actual == expected then Classified([call], Pass(res.tree, ext))
          else Classified([call], Fail(res.tree, ext, expected))
  }

  /** A browser that answers with exactly the expected tree passes the case, and so does
      one whose answer differs from it only by line feeds around it. */
  lemma ExpectedTreePasses(b: Backend, browser: string, t: DatTest, compare: bool)
    requires compare && t.expectedTree.Some?
    requires b.run(browser, CallFor(t)).Success?
    requires var tree := b.run(browser, CallFor(t)).value.tree;
             tree == t.expectedTree.value || tree == "\n" + t.expectedTree.value + "\n"
    ensures ClassifyCase(b, browser, t, false, compare).outcome.Pass?
  {
    var e := t.expectedTree.value;
    var tree := b.run(browser, CallFor(t)).value.tree;
    assert NormalizeTree(tree) == NormalizeTree(e) by {
      if tree != e {
        LeadingNewlineIgnored(e + "\n");
        TrailingNewlineIgnored(e);
        assert "\n" + e + "\n" == "\n" + (e + "\n");
      }
    }
  }

  // ---------------------------------------------------------------- summary counters

  /** One browser's entry of the summary. */
  datatype Counters = Counters(pass: nat, fail: nat, error: nat, skip: nat)

  const NoCounts := Counters(0, 0, 0, 0)

  /** The counter update a recorded outcome makes as it happens: the matching counter
      goes up by one, and a recorded outcome counts nowhere. */
  function Count(c: Counters, o: Outcome): Counters {
    match o
    case Skip(_) => c.(skip := c.skip + 1)
    case Error(_) => c.(error := c.error + 1)
    case Recorded(_, _) => c
    case Pass(_, _) => c.(pass := c.pass + 1)
    case Fail(_, _, _) => c.(fail := c.fail + 1)
  }

  /** Which counter, if any, an outcome belongs to. */
  datatype Kind = PassKind | FailKind | ErrorKind | SkipKind | RecordedKind

  function KindOf(o: Outcome): Kind {
    match o
    case Skip(_) => SkipKind
    case Error(_) => ErrorKind
    case Recorded(_, _) => RecordedKind
    case Pass(_, _) => PassKind
    case Fail(_, _, _) => FailKind
  }

  /** The number of outcomes of kind `k`. */
  function CountKind(os: seq<Outcome>, k: Kind): (n: nat)
    ensures n <= |os|
    decreases |os|
  {
    if |os| == 0 then 0 else (if KindOf(os[0]) == k then 1 else 0) + CountKind(os[1..], k)
  }

  /** The summary as read off a list of outcomes, independent of the order the counters
      were bumped in. */
  function Tally(os: seq<Outcome>): Counters {
    Counters(CountKind(os, PassKind), CountKind(os, FailKind), CountKind(os, ErrorKind), CountKind(os, SkipKind))
  }

  lemma {:induction false} CountKindSnoc(os: seq<Outcome>, o: Outcome, k: Kind)
    ensures CountKind(os + [o], k) == CountKind(os, k) + (if KindOf(o) == k then 1 else 0)
    decreases |os|
  {
    if |os| == 0 {
      assert os + [o] == [o];
    } else {
      assert (os + [o])[1..] == os[1..] + [o];
      CountKindSnoc(os[1..], o, k);
    }
  }

  /** Bumping a counter per outcome as it arrives keeps the summary equal to the tally of
      all outcomes so far. */
  lemma TallySnoc(os: seq<Outcome>, o: Outcome)
    ensures Tally(os + [o]) == Count(Tally(os), o)
  {
    CountKindSnoc(os, o, PassKind);
    CountKindSnoc(os, o, FailKind);
    CountKindSnoc(os, o, ErrorKind);
    CountKindSnoc(os, o, SkipKind);
  }

  /** Every outcome is counted exactly once, except the recorded ones, which are counted
      nowhere. */
  lemma {:induction false} TallyAccountsForAll(os: seq<Outcome>)
    ensures var c := Tally(os);
            c.pass + c.fail + c.error + c.skip + CountKind(os, RecordedKind) == |os|
    decreases |os|
  {
    if |os| > 0 {
      TallyAccountsForAll(os[1..]);
    }
  }

  /** A counter is positive exactly when some outcome of its kind is present. */
  lemma {:induction false} CountKindPositive(os: seq<Outcome>, k: Kind)
    ensures CountKind(os, k) > 0 <==> exists i :: 0 <= i < |os| && KindOf(os[i]) == k
    decreases |os|
  {
    if |os| > 0 {
      CountKindPositive(os[1..], k);
      if CountKind(os[1..], k) > 0 {
        var j :| 0 <= j < |os| - 1 && KindOf(os[1..][j]) == k;
        assert KindOf(os[j + 1]) == k;
      }
      if exists i :: 0 <= i < |os| && KindOf(os[i]) == k {
        var i :| 0 <= i < |os| && KindOf(os[i]) == k;
        if i > 0 {
          assert KindOf(os[1..][i - 1]) == k;
        }
      }
    }
  }
}
