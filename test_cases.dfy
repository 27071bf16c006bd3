/** Turning the document's nodes into test cases (src/lib.rs, `TestCase` and
    `get_test_cases`). `Step`, `Run` and `Extract` say what the scan computes;
    `GetTestCases` is the scan itself, a loop over the nodes proved equal to `Extract`. */
module TestCases {
  import opened Wrappers
  import opened Markdown
  import opened Sections

  datatype TestCase<O> = TestCase(name: string, headings: seq<string>, lineNumber: nat, options: O, args: seq<string>)

  /** The name of a test case emitted before any heading. */
  const UnnamedTest: string := "(Unnamed test)"

  /** The two ways the scan aborts; either way no test case is returned. */
  datatype Error =
    | MalformedHeading
    | OptionsParseError(line: nat, message: string)

  /** `MergeSerialized::merge_serialized`: overlays the text of an options block on the
      options in effect, or reports why the text was refused. Supplied by the caller. */
  type Merge<!O> = (O, string) -> Result<O, string>

  /** `TestCase::new`: a case made of `args` and a snapshot of the stack's state. */
  function NewTestCase<O>(args: seq<string>, scope: Scope<O>): (t: TestCase<O>)
    ensures t.args == args && t.options == scope.Options()
    ensures scope.sections == [] ==> t.name == UnnamedTest && t.headings == [] && t.lineNumber == 0
    ensures scope.sections != [] ==>
              t.headings + [t.name] == scope.Headings() && t.lineNumber == Last(scope.sections).line
  {
    var headings := scope.Headings();
    var name := if headings == [] then UnnamedTest else Last(headings);
    TestCase(
      name,
      if headings == [] then [] else headings[..|headings| - 1],
      if scope.sections == [] then 0 else Last(scope.sections).line,
      scope.Options(),
      args)
  }

  /** Everything the scan carries between two nodes: the section stack, the cases emitted
      so far and the pending arguments. */
  datatype Scan<O> = Scan(scope: Scope<O>, cases: seq<TestCase<O>>, args: seq<string>)

  function Initial<O>(rootOptions: O): Scan<O> {
    Scan(Scope(rootOptions, []), [], [])
  }

  /** The `push_test_case` closure: emit a case when arguments are pending. */
  function Flush<O>(s: Scan<O>): (r: Scan<O>)
    ensures r.scope == s.scope && r.args == []
    ensures |s.args| == 0 ==> r.cases == s.cases
    ensures |s.args| > 0 ==> r.cases == s.cases + [NewTestCase(s.args, s.scope)]
  {
    if |s.args| > 0 then Scan(s.scope, s.cases + [NewTestCase(s.args, s.scope)], []) else s
  }

  /** One iteration of the loop over the nodes. */
  function Step<O>(s: Scan<O>, node: Node, merge: Merge<O>): (r: Result<Scan<O>, Error>)
    ensures r.Err? <==>
      (node.HeadingNode? && Label(node.heading).None?) ||
      (node.CodeNode? && IsOptionsBlock(node.code) && merge(s.scope.Options(), node.code.value).Err?)
    ensures node.OtherNode? ==> r == Ok(s)
    ensures r.Ok? && IsDataBlock(node) ==> r.value == s.(args := s.args + [node.code.value])
    ensures r.Ok? ==> s.cases <= r.value.cases
    ensures r.Ok? ==> forall i :: |s.cases| <= i < |r.value.cases| ==> |r.value.cases[i].args| > 0
  {
    match node
    case HeadingNode(heading) =>
      var flushed := Flush(s);
      (match Label(heading)
       case None => Err(MalformedHeading)
       case Some(name) => Ok(flushed.(scope := flushed.scope.Push(heading.depth, name, heading.line))))
    case CodeNode(code) =>
      if IsOptionsBlock(code) then
        (match merge(s.scope.Options(), code.value)
         case Err(message) => Err(OptionsParseError(code.line, message))
         case Ok(options) => Ok(s.(scope := s.scope.SetOptions(options))))
      else Ok(s.(args := s.args + [code.value]))
    case OtherNode => Ok(s)
  }

  /** Continues a run with one more node, unless it has already failed. */
  function Then<O>(r: Result<Scan<O>, Error>, node: Node, merge: Merge<O>): Result<Scan<O>, Error> {
    match r
    case Err(e) => Err(e)
    case Ok(s) => Step(s, node, merge)
  }

  /** The loop over `nodes`, stopping at the first error: the run over all but the last
      node, continued with the last one. */
  function Run<O>(s: Scan<O>, nodes: seq<Node>, merge: Merge<O>): (r: Result<Scan<O>, Error>)
    ensures r.Ok? ==> s.cases <= r.value.cases
    ensures r.Ok? ==> forall i :: |s.cases| <= i < |r.value.cases| ==> |r.value.cases[i].args| > 0
    decreases |nodes|
  {
    if nodes == [] then Ok(s) else Then(Run(s, nodes[..|nodes| - 1], merge), Last(nodes), merge)
  }

  /** `get_test_cases` once the document is parsed: the loop, then the final flush. */
  function Extract<O>(nodes: seq<Node>, rootOptions: O, merge: Merge<O>): (r: Result<seq<TestCase<O>>, Error>)
    ensures r.Ok? ==> forall i :: 0 <= i < |r.value| ==> |r.value[i].args| > 0
  {
    match Run(Initial(rootOptions), nodes, merge)
    case Err(e) => Err(e)
    case Ok(s) => Ok(Flush(s).cases)
  }

  /** Extending a run that reached `s` by node `i` gives that node's step. */
  lemma StepAt<O>(start: Scan<O>, nodes: seq<Node>, i: nat, merge: Merge<O>, s: Scan<O>)
    requires i < |nodes| && Run(start, nodes[..i], merge) == Ok(s)
    ensures Run(start, nodes[..i + 1], merge) == Step(s, nodes[i], merge)
  {
    assert nodes[..i + 1][..i] == nodes[..i];
  }

  /** Once a run has failed, the nodes after the failure change nothing. */
  lemma {:induction false} ErrorIsFinal<O>(start: Scan<O>, nodes: seq<Node>, i: nat, merge: Merge<O>, e: Error)
    requires i <= |nodes| && Run(start, nodes[..i], merge) == Err(e)
    ensures Run(start, nodes, merge) == Err(e)
    decreases |nodes|
  {
    if i < |nodes| {
      var front := nodes[..|nodes| - 1];
      assert front[..i] == nodes[..i];
      ErrorIsFinal(start, front, i, merge, e);
    } else {
      assert nodes[..i] == nodes;
    }
  }

  /** A failing step at node `i` is the result of the whole run: nothing after the failing
      node is looked at. */
  lemma AbortAt<O>(start: Scan<O>, nodes: seq<Node>, i: nat, merge: Merge<O>, s: Scan<O>, e: Error)
    requires i < |nodes|
    requires Run(start, nodes[..i], merge) == Ok(s)
    requires Step(s, nodes[i], merge) == Err(e)
    ensures Run(start, nodes, merge) == Err(e)
  {
    StepAt(start, nodes, i, merge, s);
    ErrorIsFinal(start, nodes, i + 1, merge, e);
  }

  /** A successful run over a non-empty list is a successful run over all but the last node
      followed by a successful step over the last one. */
  lemma LastStep<O>(start: Scan<O>, nodes: seq<Node>, merge: Merge<O>, s: Scan<O>) returns (before: Scan<O>)
    requires nodes != [] && Run(start, nodes, merge) == Ok(s)
    ensures Run(start, nodes[..|nodes| - 1], merge) == Ok(before)
    ensures Step(before, Last(nodes), merge) == Ok(s)
  {
    before := Run(start, nodes[..|nodes| - 1], merge).value;
  }

  /** Running over `front + back` is running over `front` and then, from where it stopped,
      over `back`. */
  lemma {:induction false} RunAppend<O>(s: Scan<O>, front: seq<Node>, back: seq<Node>, merge: Merge<O>, t: Scan<O>)
    requires Run(s, front, merge) == Ok(t)
    ensures Run(s, front + back, merge) == Run(t, back, merge)
    decreases |back|
  {
    if back == [] {
      assert front + back == front;
    } else {
      var shorter := back[..|back| - 1];
      assert (front + back)[..|front + back| - 1] == front + shorter;
      assert Last(front + back) == Last(back);
      RunAppend(s, front, shorter, merge, t);
    }
  }

  /** The flush: appends a case built from the stack when `args` is non-empty, and hands
      back the arguments emptied either way. */
  method PushTestCase<O>(stack: SectionStack<O>, testCases: seq<TestCase<O>>, args: seq<string>)
    returns (cases: seq<TestCase<O>>, remaining: seq<string>)
    ensures remaining == []
    ensures |args| > 0 ==> cases == testCases + [NewTestCase(args, stack.State())]
    ensures |args| == 0 ==> cases == testCases
    ensures Scan(stack.State(), cases, remaining) == Flush(Scan(stack.State(), testCases, args))
  {
    cases, remaining := testCases, args;
    if |args| > 0 {
      cases := testCases + [NewTestCase(args, stack.State())];
      remaining := [];
    }
  }

  /** `get_test_cases` over an already parsed document. */
  method GetTestCases<O>(nodes: seq<Node>, rootOptions: O, merge: Merge<O>)
    returns (result: Result<seq<TestCase<O>>, Error>)
    ensures result == Extract(nodes, rootOptions, merge)
  {
    var stack := new SectionStack(rootOptions);
    var testCases: seq<TestCase<O>> := [];
    var args: seq<string> := [];
    for i := 0 to |nodes|
      invariant stack.Valid()
      invariant Run(Initial(rootOptions), nodes[..i], merge) == Ok(Scan(stack.State(), testCases, args))
    {
      ghost var before := Scan(stack.State(), testCases, args);
      StepAt(Initial(rootOptions), nodes, i, merge, before);
      match nodes[i] {
        case HeadingNode(heading) =>
          testCases, args := PushTestCase(stack, testCases, args);
          var ok := stack.PushHeading(heading);
          if !ok {
            AbortAt(Initial(rootOptions), nodes, i, merge, before, MalformedHeading);
            return Err(MalformedHeading);
          }
        case CodeNode(code) =>
          if code.meta == Some(OptionsMeta) {
            var merged := merge(stack.GetOptions(), code.value);
            if merged.Err? {
              AbortAt(Initial(rootOptions), nodes, i, merge, before, OptionsParseError(code.line, merged.error));
              return Err(OptionsParseError(code.line, merged.error));
            }
            stack.SetOptions(merged.value);
          } else {
            args := args + [code.value];
          }
        case OtherNode =>
      }
    }
    assert nodes[..|nodes|] == nodes;
    testCases, args := PushTestCase(stack, testCases, args);
    result := Ok(testCases);
  }
}
