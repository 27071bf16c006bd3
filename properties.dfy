/** What the whole scan promises: which data blocks end up in which test case, that the
    depth invariant holds throughout, and when the scan aborts. */
module ExtractionProperties {
  import opened Wrappers
  import opened Markdown
  import opened Sections
  import opened TestCases

  /** The texts of the data blocks of `nodes`, in document order. */
  function DataValues(nodes: seq<Node>): seq<string> {
    if nodes == [] then []
    else DataValues(nodes[..|nodes| - 1]) + (if IsDataBlock(Last(nodes)) then [Last(nodes).code.value] else [])
  }

  /** The data-block texts of `nodes` grouped by the headings between them: one group
      for the stretch before the first heading and one for the stretch after each heading. */
  function Segments(nodes: seq<Node>): (groups: seq<seq<string>>)
    ensures |groups| == 1 + |set i | 0 <= i < |nodes| && nodes[i].HeadingNode?|
  {
    if nodes == [] then [[]]
    else
      var front := nodes[..|nodes| - 1];
      var groups := Segments(front);
      var node := Last(nodes);
      var headings := set i | 0 <= i < |nodes| && nodes[i].HeadingNode?;
      var before := set i | 0 <= i < |front| && front[i].HeadingNode?;
      assert headings == before + (if node.HeadingNode? then {|front|} else {});
      if node.HeadingNode? then groups + [[]]
      else if IsDataBlock(node) then groups[..|groups| - 1] + [Last(groups) + [node.code.value]]
      else groups
  }

  /** The groups that hold at least one text, in order. */
  function NonEmpty(groups: seq<seq<string>>): (kept: seq<seq<string>>)
    ensures |kept| <= |groups|
    ensures forall i :: 0 <= i < |kept| ==> |kept[i]| > 0
  {
    if groups == [] then []
    else NonEmpty(groups[..|groups| - 1]) + (if |Last(groups)| > 0 then [Last(groups)] else [])
  }

  function Concat(groups: seq<seq<string>>): seq<string> {
    if groups == [] then [] else Concat(groups[..|groups| - 1]) + Last(groups)
  }

  /** The argument lists of `cases`, in output order. */
  function ArgsOf<O>(cases: seq<TestCase<O>>): seq<seq<string>> {
    seq(|cases|, i requires 0 <= i < |cases| => cases[i].args)
  }

  lemma ArgsOfAppend<O>(cases: seq<TestCase<O>>, c: TestCase<O>)
    ensures ArgsOf(cases + [c]) == ArgsOf(cases) + [c.args]
  {
    assert forall i :: 0 <= i < |cases| ==> (cases + [c])[i] == cases[i];
  }

  /** Dropping the empty groups does not change their concatenation. */
  lemma {:induction false} ConcatNonEmpty(groups: seq<seq<string>>)
    ensures Concat(NonEmpty(groups)) == Concat(groups)
  {
    if groups != [] {
      var front := groups[..|groups| - 1];
      ConcatNonEmpty(front);
      if |Last(groups)| > 0 {
        var kept := NonEmpty(front);
        assert (kept + [Last(groups)])[..|kept|] == kept;
      } else {
        assert Last(groups) == [];
        assert NonEmpty(groups) == NonEmpty(front) + [] == NonEmpty(front);
        assert Concat(groups) == Concat(front) + [] == Concat(front);
      }
    }
  }

  /** The groups, concatenated, are the data blocks in document order. */
  lemma {:induction false} ConcatSegments(nodes: seq<Node>)
    ensures Concat(Segments(nodes)) == DataValues(nodes)
  {
    if nodes != [] {
      var front := nodes[..|nodes| - 1];
      ConcatSegments(front);
      var groups := Segments(front);
      var node := Last(nodes);
      if node.HeadingNode? {
        assert (groups + [[]])[..|groups|] == groups;
      } else if IsDataBlock(node) {
        var changed := groups[..|groups| - 1] + [Last(groups) + [node.code.value]];
        assert changed[..|changed| - 1] == groups[..|groups| - 1];
      }
    }
  }

  /** While the scan runs, the cases emitted so far hold the non-empty groups before the
      current stretch, and the pending arguments are the current stretch's group. */
  lemma {:induction false} RunGroupsArguments<O>(rootOptions: O, nodes: seq<Node>, merge: Merge<O>, s: Scan<O>)
    requires Run(Initial(rootOptions), nodes, merge) == Ok(s)
    ensures var groups := Segments(nodes);
      ArgsOf(s.cases) == NonEmpty(groups[..|groups| - 1]) && s.args == Last(groups)
    decreases |nodes|
  {
    if nodes == [] {
      assert s == Initial(rootOptions);
    } else {
      var front := nodes[..|nodes| - 1];
      var before := LastStep(Initial(rootOptions), nodes, merge, s);
      RunGroupsArguments(rootOptions, front, merge, before);
      var groups := Segments(front);
      var node := Last(nodes);
      if node.HeadingNode? {
        assert (groups + [[]])[..|groups|] == groups;
        if |before.args| > 0 {
          ArgsOfAppend(before.cases, NewTestCase(before.args, before.scope));
        }
      } else if IsDataBlock(node) {
        var changed := groups[..|groups| - 1] + [Last(groups) + [node.code.value]];
        assert changed[..|changed| - 1] == groups[..|groups| - 1];
      }
    }
  }

  /** The argument lists of the emitted cases are, in order, the non-empty heading-delimited
      groups of data blocks. So every case has arguments, a heading followed only by headings
      or options blocks emits none, and options blocks never reach an argument list:
      concatenating the cases' arguments gives exactly the data blocks in document order. */
  lemma CasesAreNonEmptyGroups<O>(nodes: seq<Node>, rootOptions: O, merge: Merge<O>, cases: seq<TestCase<O>>)
    requires Extract(nodes, rootOptions, merge) == Ok(cases)
    ensures ArgsOf(cases) == NonEmpty(Segments(nodes))
    ensures forall i :: 0 <= i < |cases| ==> |cases[i].args| > 0
    ensures Concat(ArgsOf(cases)) == DataValues(nodes)
  {
    var s := Run(Initial(rootOptions), nodes, merge).value;
    assert cases == Flush(s).cases;
    RunGroupsArguments(rootOptions, nodes, merge, s);
    FlushCompletesGroups(s, Segments(nodes));
    forall i | 0 <= i < |cases| ensures |cases[i].args| > 0 {
      assert ArgsOf(cases)[i] == cases[i].args;
    }
    ConcatNonEmpty(Segments(nodes));
    ConcatSegments(nodes);
  }

  /** The final flush adds the last group when it is non-empty. */
  lemma FlushCompletesGroups<O>(s: Scan<O>, groups: seq<seq<string>>)
    requires |groups| > 0
    requires ArgsOf(s.cases) == NonEmpty(groups[..|groups| - 1]) && s.args == Last(groups)
    ensures ArgsOf(Flush(s).cases) == NonEmpty(groups)
  {
    if |s.args| > 0 {
      ArgsOfAppend(s.cases, NewTestCase(s.args, s.scope));
    }
  }

  lemma {:induction false} NoDataNoValues(nodes: seq<Node>)
    requires forall i :: 0 <= i < |nodes| ==> !IsDataBlock(nodes[i])
    ensures DataValues(nodes) == []
  {
    if nodes != [] {
      NoDataNoValues(nodes[..|nodes| - 1]);
    }
  }

  /** A document without data blocks yields no test case, whatever its headings and
      options blocks. */
  lemma NoDataNoCases<O>(nodes: seq<Node>, rootOptions: O, merge: Merge<O>, cases: seq<TestCase<O>>)
    requires forall i :: 0 <= i < |nodes| ==> !IsDataBlock(nodes[i])
    requires Extract(nodes, rootOptions, merge) == Ok(cases)
    ensures cases == []
  {
    CasesAreNonEmptyGroups(nodes, rootOptions, merge, cases);
    NoDataNoValues(nodes);
  }

  /** Every state the scan reaches has strictly increasing section depths. */
  lemma {:induction false} RunKeepsIncreasing<O>(rootOptions: O, nodes: seq<Node>, merge: Merge<O>, s: Scan<O>)
    requires Run(Initial(rootOptions), nodes, merge) == Ok(s)
    ensures Increasing(s.scope.sections)
    decreases |nodes|
  {
    if nodes == [] {
      assert s == Initial(rootOptions);
    } else {
      var before := LastStep(Initial(rootOptions), nodes, merge, s);
      RunKeepsIncreasing(rootOptions, nodes[..|nodes| - 1], merge, before);
      match Last(nodes)
      case HeadingNode(heading) =>
        PushKeepsIncreasing(before.scope, heading.depth, Label(heading).value, heading.line);
      case CodeNode(code) =>
        if IsOptionsBlock(code) {
          SetOptionsKeepsIncreasing(before.scope, merge(before.scope.Options(), code.value).value);
        }
      case OtherNode =>
    }
  }

  /** A heading whose first child is not plain text, or that has no children, aborts the
      whole extraction once the scan reaches it. */
  lemma AbortsOnMalformedHeading<O>(nodes: seq<Node>, rootOptions: O, merge: Merge<O>, i: nat)
    requires i < |nodes| && Run(Initial(rootOptions), nodes[..i], merge).Ok?
    requires nodes[i].HeadingNode? && Label(nodes[i].heading).None?
    ensures Extract(nodes, rootOptions, merge) == Err(MalformedHeading)
  {
    AbortAt(Initial(rootOptions), nodes, i, merge, Run(Initial(rootOptions), nodes[..i], merge).value, MalformedHeading);
  }

  /** An options block whose text the merge refuses aborts the whole extraction, reporting
      that block's start line and the merge's message. */
  lemma AbortsOnRefusedOptions<O>(nodes: seq<Node>, rootOptions: O, merge: Merge<O>, i: nat, s: Scan<O>)
    requires i < |nodes| && Run(Initial(rootOptions), nodes[..i], merge) == Ok(s)
    requires nodes[i].CodeNode? && IsOptionsBlock(nodes[i].code)
    requires merge(s.scope.Options(), nodes[i].code.value).Err?
    ensures Extract(nodes, rootOptions, merge) ==
      Err(OptionsParseError(nodes[i].code.line, merge(s.scope.Options(), nodes[i].code.value).error))
  {
    var e := OptionsParseError(nodes[i].code.line, merge(s.scope.Options(), nodes[i].code.value).error);
    AbortAt(Initial(rootOptions), nodes, i, merge, s, e);
  }

  /** Conversely, every abort has one of those two causes in the document: the first node
      the loop fails at is either a malformed heading, or an options block at the reported
      line whose text the merge refused, applied to the options in effect there, with the
      reported message. */
  lemma {:induction false} ErrorHasCause<O>(s: Scan<O>, nodes: seq<Node>, merge: Merge<O>, e: Error)
    requires Run(s, nodes, merge) == Err(e)
    ensures e.MalformedHeading? ==>
      exists i :: 0 <= i < |nodes| && Run(s, nodes[..i], merge).Ok? &&
        nodes[i].HeadingNode? && Label(nodes[i].heading).None?
    ensures e.OptionsParseError? ==>
      exists i :: 0 <= i < |nodes| && Run(s, nodes[..i], merge).Ok? &&
        nodes[i].CodeNode? && IsOptionsBlock(nodes[i].code) && nodes[i].code.line == e.line &&
        merge(Run(s, nodes[..i], merge).value.scope.Options(), nodes[i].code.value) == Err(e.message)
    decreases |nodes|
  {
    var front := nodes[..|nodes| - 1];
    match Run(s, front, merge)
    case Err(_) =>
      ErrorHasCause(s, front, merge, e);
      assert forall i :: 0 <= i < |front| ==> front[i] == nodes[i] && front[..i] == nodes[..i];
    case Ok(t) =>
      var i := |nodes| - 1;
      assert nodes[..i] == front;
      if Last(nodes).CodeNode? && IsOptionsBlock(Last(nodes).code) {
        assert merge(t.scope.Options(), nodes[i].code.value) == Err(e.message);
      }
  }

  /** The loop succeeds when every heading is well formed and the merge accepts every options
      block at the options in effect when the loop reaches it. */
  lemma {:induction false} RunSucceeds<O>(s: Scan<O>, nodes: seq<Node>, merge: Merge<O>)
    requires forall i :: 0 <= i < |nodes| && nodes[i].HeadingNode? ==> Label(nodes[i].heading).Some?
    requires forall i ::
      (0 <= i < |nodes| && Run(s, nodes[..i], merge).Ok? && nodes[i].CodeNode? && IsOptionsBlock(nodes[i].code)) ==>
        merge(Run(s, nodes[..i], merge).value.scope.Options(), nodes[i].code.value).Ok?
    ensures Run(s, nodes, merge).Ok?
    decreases |nodes|
  {
    if nodes != [] {
      var front := nodes[..|nodes| - 1];
      assert forall i :: 0 <= i < |front| ==> front[i] == nodes[i] && front[..i] == nodes[..i];
      RunSucceeds(s, front, merge);
      assert nodes[..|nodes| - 1] == front;
    }
  }

  /** With well-formed headings and a merge that accepts every text, the extraction succeeds. */
  lemma ExtractSucceeds<O>(nodes: seq<Node>, rootOptions: O, merge: Merge<O>)
    requires forall i :: 0 <= i < |nodes| && nodes[i].HeadingNode? ==> Label(nodes[i].heading).Some?
    requires forall o, text :: merge(o, text).Ok?
    ensures Extract(nodes, rootOptions, merge).Ok?
  {
    var start := Initial(rootOptions);
    forall i | 0 <= i < |nodes| && Run(start, nodes[..i], merge).Ok? && nodes[i].CodeNode?
      ensures merge(Run(start, nodes[..i], merge).value.scope.Options(), nodes[i].code.value).Ok?
    {
      var options := Run(start, nodes[..i], merge).value.scope.Options();
      assert merge(options, nodes[i].code.value).Ok?;
    }
    RunSucceeds(start, nodes, merge);
  }

  /** Every section of `scope` and its root hold `options`. */
  ghost predicate AllOptions<O>(scope: Scope<O>, options: O) {
    scope.rootOptions == options &&
    forall i :: 0 <= i < |scope.sections| ==> scope.sections[i].options == options
  }

  /** A heading keeps the root options everywhere when they were everywhere before: the
      kept sections hold them, and so does the new one, which inherits them. */
  lemma PushKeepsRoot<O>(scope: Scope<O>, options: O, depth: nat, name: string, line: nat)
    requires AllOptions(scope, options)
    ensures AllOptions(scope.Push(depth, name, line), options)
  {
    var kept := Retained(scope.sections, depth);
    RetainedIsFilter(scope.sections, depth);
    forall i | 0 <= i < |kept| ensures kept[i].options == options {
      assert kept[i] in kept;
      var j :| 0 <= j < |scope.sections| && scope.sections[j] == kept[i];
    }
  }

  /** Without an options block the root options are in effect everywhere: every section
      and every case emitted so far carries them. */
  lemma {:induction false} NoOptionsKeepRoot<O>(rootOptions: O, nodes: seq<Node>, merge: Merge<O>, s: Scan<O>)
    requires forall i :: 0 <= i < |nodes| ==> !(nodes[i].CodeNode? && IsOptionsBlock(nodes[i].code))
    requires Run(Initial(rootOptions), nodes, merge) == Ok(s)
    ensures AllOptions(s.scope, rootOptions)
    ensures forall i :: 0 <= i < |s.cases| ==> s.cases[i].options == rootOptions
    decreases |nodes|
  {
    if nodes == [] {
      assert s == Initial(rootOptions);
    } else {
      var front := nodes[..|nodes| - 1];
      var before := LastStep(Initial(rootOptions), nodes, merge, s);
      assert forall i :: 0 <= i < |front| ==> front[i] == nodes[i];
      NoOptionsKeepRoot(rootOptions, front, merge, before);
      assert before.scope.Options() == rootOptions;
      match Last(nodes)
      case HeadingNode(heading) =>
        PushKeepsRoot(before.scope, rootOptions, heading.depth, Label(heading).value, heading.line);
      case CodeNode(code) =>
        assert s == before.(args := before.args + [code.value]);
      case OtherNode =>
    }
  }

  /** So a document without options blocks gives every case the root options. */
  lemma NoOptionsRootEverywhere<O>(nodes: seq<Node>, rootOptions: O, merge: Merge<O>, cases: seq<TestCase<O>>)
    requires forall i :: 0 <= i < |nodes| ==> !(nodes[i].CodeNode? && IsOptionsBlock(nodes[i].code))
    requires Extract(nodes, rootOptions, merge) == Ok(cases)
    ensures forall i :: 0 <= i < |cases| ==> cases[i].options == rootOptions
  {
    var s := Run(Initial(rootOptions), nodes, merge).value;
    NoOptionsKeepRoot(rootOptions, nodes, merge, s);
  }
}
