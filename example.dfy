/** The scenario of the crate's `test_basic` test, with its document given as the node
    list the parser would produce and a two-field options type. */
module BasicExample {
  import opened Wrappers
  import opened Markdown
  import opened Sections
  import opened TestCases

  datatype Options = Options(foo: int, bar: bool)

  /** The keys an options block sets; an absent key leaves the current value. */
  datatype Table = Table(foo: Option<int>, bar: Option<bool>)

  /** A key present in the table replaces the current value; an absent key keeps it. */
  function Overlay(options: Options, table: Table): (r: Options)
    ensures table.foo.None? ==> r.foo == options.foo
    ensures table.bar.None? ==> r.bar == options.bar
    ensures table.foo.Some? ==> r.foo == table.foo.value
    ensures table.bar.Some? ==> r.bar == table.bar.value
  {
    Options(
      if table.foo.Some? then table.foo.value else options.foo,
      if table.bar.Some? then table.bar.value else options.bar)
  }

  /** The merge is sparse: an empty table changes nothing, and a table with a single key
      changes only that field. */
  lemma OverlayIsSparse(options: Options, foo: int, bar: bool)
    ensures Overlay(options, Table(None, None)) == options
    ensures Overlay(options, Table(Some(foo), None)) == options.(foo := foo)
    ensures Overlay(options, Table(None, Some(bar))) == options.(bar := bar)
  {
  }

  /** Stands in for the TOML parser: the tables of the option blocks of the fixture. */
  function ParseTable(source: string): Result<Table, string> {
    if source == "bar = true" then Ok(Table(None, Some(true)))
    else if source == "foo = 5" then Ok(Table(Some(5), None))
    else if source == "bar = false" then Ok(Table(None, Some(false)))
    else if source == "foo = 11" then Ok(Table(Some(11), None))
    else Err("invalid TOML")
  }

  /** `merge_serialized` of the test's options type: a text the parser refuses is refused with
      the parser's message, and an accepted table is overlaid on the options in effect. */
  function MergeSerialized(options: Options, source: string): (r: Result<Options, string>)
    ensures r.Err? <==> ParseTable(source).Err?
    ensures r.Err? ==> r.error == ParseTable(source).error
    ensures r.Ok? ==> r.value == Overlay(options, ParseTable(source).value)
  {
    match ParseTable(source)
    case Err(message) => Err(message)
    case Ok(table) => Ok(Overlay(options, table))
  }

  function H(depth: nat, name: string, line: nat): Node {
    HeadingNode(Heading(depth, [Text(name)], line))
  }

  function OptionsBlock(source: string, line: nat): Node {
    CodeNode(Code(Some(OptionsMeta), source, line))
  }

  function Block(value: string, line: nat): Node {
    CodeNode(Code(None, value, line))
  }

  /** The fixture document, one stretch per heading: options set on the top heading and
      on each group, and one overridden inside the "Pear" case. */
  function Tests(): seq<Node> { [H(1, "Tests", 1), OtherNode, OptionsBlock("bar = true", 4)] }
  function Fruits(): seq<Node> { [H(2, "Fruits", 7), OptionsBlock("foo = 5", 8)] }
  function Apple(): seq<Node> { [H(3, "Apple", 10), Block("Granny Smith", 12), Block("red", 16)] }
  function Pear(): seq<Node> {
    [H(3, "Pear", 20), OptionsBlock("bar = false", 22), Block("Bartlett", 26), Block("yellow", 30)]
  }
  function Vegetables(): seq<Node> { [H(2, "Vegetables", 34), OptionsBlock("foo = 11", 36)] }
  function Potato(): seq<Node> { [H(3, "Potato", 40), OtherNode, Block("Russet", 44), Block("brown", 48)] }

  function Fixture(): seq<Node> {
    Tests() + (Fruits() + (Apple() + (Pear() + (Vegetables() + Potato()))))
  }

  function ApplePear(): seq<TestCase<Options>> {
    [ TestCase("Apple", ["Tests", "Fruits"], 10, Options(5, true), ["Granny Smith", "red"]),
      TestCase("Pear", ["Tests", "Fruits"], 20, Options(5, false), ["Bartlett", "yellow"]) ]
  }

  function Expected(): seq<TestCase<Options>> {
    ApplePear() + [TestCase("Potato", ["Tests", "Vegetables"], 40, Options(11, true), ["Russet", "brown"])]
  }

  const Default := Options(0, false)
  const TestsSection := Section(1, "Tests", 1, Options(0, true))
  const FruitsSection := Section(2, "Fruits", 7, Options(5, true))
  const AppleSection := Section(3, "Apple", 10, Options(5, true))
  const PearSection := Section(3, "Pear", 20, Options(5, false))
  const VegetablesSection := Section(2, "Vegetables", 34, Options(11, true))
  const PotatoSection := Section(3, "Potato", 40, Options(11, true))

  /** The section stacks of the fixture: `...Opened` right after a heading, before its
      options block. */
  const TestsOpened := Scope(Default, [Section(1, "Tests", 1, Default)])
  const TestsScope := Scope(Default, [TestsSection])
  const FruitsOpened := Scope(Default, [TestsSection, Section(2, "Fruits", 7, Options(0, true))])
  const FruitsScope := Scope(Default, [TestsSection, FruitsSection])
  const AppleScope := Scope(Default, [TestsSection, FruitsSection, AppleSection])
  const PearOpened := Scope(Default, [TestsSection, FruitsSection, Section(3, "Pear", 20, Options(5, true))])
  const PearScope := Scope(Default, [TestsSection, FruitsSection, PearSection])
  const VegetablesOpened := Scope(Default, [TestsSection, Section(2, "Vegetables", 34, Options(0, true))])
  const VegetablesScope := Scope(Default, [TestsSection, VegetablesSection])
  const PotatoScope := Scope(Default, [TestsSection, VegetablesSection, PotatoSection])

  const AppleArgs: seq<string> := ["Granny Smith", "red"]
  const PearArgs: seq<string> := ["Bartlett", "yellow"]
  const PotatoArgs: seq<string> := ["Russet", "brown"]

  /** A successful run followed by a successful step. */
  lemma RunSnoc(s: Scan<Options>, nodes: seq<Node>, node: Node, t: Scan<Options>, u: Scan<Options>)
    requires Run(s, nodes, MergeSerialized) == Ok(t)
    requires Step(t, node, MergeSerialized) == Ok(u)
    ensures Run(s, nodes + [node], MergeSerialized) == Ok(u)
  {
    assert (nodes + [node])[..|nodes|] == nodes;
  }

  /** A heading of the fixture flushes and then pushes its section. */
  lemma HeadingStep(s: Scan<Options>, depth: nat, name: string, line: nat, t: Scan<Options>)
    requires t == Flush(s).(scope := Flush(s).scope.Push(depth, name, line))
    ensures Step(s, H(depth, name, line), MergeSerialized) == Ok(t)
  {
    assert Label(Heading(depth, [Text(name)], line)) == Some(name);
  }

  lemma OptionsStep(s: Scan<Options>, source: string, line: nat, options: Options, t: Scan<Options>)
    requires MergeSerialized(s.scope.Options(), source) == Ok(options)
    requires t == s.(scope := s.scope.SetOptions(options))
    ensures Step(s, OptionsBlock(source, line), MergeSerialized) == Ok(t)
  {
  }

  /** `set_options` on a stack given as its outer sections and its innermost one. */
  lemma SetInnermost(scope: Scope<Options>, front: seq<Section<Options>>, x: Section<Options>, options: Options)
    requires scope.sections == front + [x]
    ensures scope.SetOptions(options) == Scope(scope.rootOptions, front + [x.(options := options)])
  {
    assert scope.sections[..|front|] == front;
  }

  lemma BlockStep(s: Scan<Options>, value: string, line: nat, t: Scan<Options>)
    requires t == s.(args := s.args + [value])
    ensures Step(s, Block(value, line), MergeSerialized) == Ok(t)
  {
  }

  /** `Retained` on the short stacks of the fixture, one section at a time. */
  function Kept(x: Section<Options>, depth: nat): seq<Section<Options>> {
    if x.depth < depth then [x] else []
  }

  lemma RetainedOne(a: Section<Options>, depth: nat)
    ensures Retained([a], depth) == Kept(a, depth)
  {
    assert [a][..0] == [];
  }

  lemma RetainedTwo(a: Section<Options>, b: Section<Options>, depth: nat)
    ensures Retained([a, b], depth) == Kept(a, depth) + Kept(b, depth)
  {
    assert [a, b][..1] == [a];
    RetainedOne(a, depth);
  }

  lemma RetainedThree(a: Section<Options>, b: Section<Options>, c: Section<Options>, depth: nat)
    ensures Retained([a, b, c], depth) == Kept(a, depth) + Kept(b, depth) + Kept(c, depth)
  {
    assert [a, b, c][..2] == [a, b];
    RetainedTwo(a, b, depth);
  }

  /** The section stack after each heading and options block of the fixture. */
  lemma TestsScopes()
    ensures Scope(Default, []).Push(1, "Tests", 1) == TestsOpened
    ensures TestsOpened.SetOptions(Options(0, true)) == TestsScope
  {
    var none: seq<Section<Options>> := [];
    assert Retained(none, 1) == [];
    SetInnermost(TestsOpened, none, Section(1, "Tests", 1, Default), Options(0, true));
  }

  lemma FruitsScopes()
    ensures TestsScope.Push(2, "Fruits", 7) == FruitsOpened
    ensures FruitsOpened.SetOptions(Options(5, true)) == FruitsScope
  {
    RetainedOne(TestsSection, 2);
    SetInnermost(FruitsOpened, [TestsSection], Section(2, "Fruits", 7, Options(0, true)), Options(5, true));
    assert [TestsSection] + [FruitsSection] == FruitsScope.sections;
  }

  lemma AppleScopes()
    ensures FruitsScope.Push(3, "Apple", 10) == AppleScope
  {
    RetainedTwo(TestsSection, FruitsSection, 3);
  }

  lemma PearScopes()
    ensures AppleScope.Push(3, "Pear", 20) == PearOpened
    ensures PearOpened.SetOptions(Options(5, false)) == PearScope
  {
    RetainedThree(TestsSection, FruitsSection, AppleSection, 3);
    SetInnermost(PearOpened, [TestsSection, FruitsSection], Section(3, "Pear", 20, Options(5, true)), Options(5, false));
    assert [TestsSection, FruitsSection] + [PearSection] == PearScope.sections;
  }

  lemma VegetablesScopes()
    ensures PearScope.Push(2, "Vegetables", 34) == VegetablesOpened
    ensures VegetablesOpened.SetOptions(Options(11, true)) == VegetablesScope
  {
    RetainedThree(TestsSection, FruitsSection, PearSection, 2);
    SetInnermost(VegetablesOpened, [TestsSection], Section(2, "Vegetables", 34, Options(0, true)), Options(11, true));
    assert [TestsSection] + [VegetablesSection] == VegetablesScope.sections;
  }

  lemma PotatoScopes()
    ensures VegetablesScope.Push(3, "Potato", 40) == PotatoScope
  {
    RetainedTwo(TestsSection, VegetablesSection, 3);
  }

  /** Each stretch of the fixture, whatever cases were emitted before it. */
  lemma TestsRun(cases: seq<TestCase<Options>>)
    ensures Run(Scan(Scope(Default, []), cases, []), Tests(), MergeSerialized) == Ok(Scan(TestsScope, cases, []))
  {
    var s0, s1, s2 := Scan(Scope(Default, []), cases, []), Scan(TestsOpened, cases, []), Scan(TestsScope, cases, []);
    TestsScopes();
    HeadingStep(s0, 1, "Tests", 1, s1);
    assert MergeSerialized(Default, "bar = true") == Ok(Options(0, true));
    OptionsStep(s1, "bar = true", 4, Options(0, true), s2);
    var n0, n2 := H(1, "Tests", 1), OptionsBlock("bar = true", 4);
    RunSnoc(s0, [], n0, s0, s1);
    assert [] + [n0] == [n0];
    RunSnoc(s0, [n0], OtherNode, s1, s1);
    assert [n0] + [OtherNode] == [n0, OtherNode];
    RunSnoc(s0, [n0, OtherNode], n2, s1, s2);
    assert [n0, OtherNode] + [n2] == Tests();
  }

  lemma FruitsRun(cases: seq<TestCase<Options>>)
    ensures Run(Scan(TestsScope, cases, []), Fruits(), MergeSerialized) == Ok(Scan(FruitsScope, cases, []))
  {
    var s0, s1, s2 := Scan(TestsScope, cases, []), Scan(FruitsOpened, cases, []), Scan(FruitsScope, cases, []);
    FruitsScopes();
    HeadingStep(s0, 2, "Fruits", 7, s1);
    assert MergeSerialized(Options(0, true), "foo = 5") == Ok(Options(5, true));
    OptionsStep(s1, "foo = 5", 8, Options(5, true), s2);
    var n0, n1 := H(2, "Fruits", 7), OptionsBlock("foo = 5", 8);
    RunSnoc(s0, [], n0, s0, s1);
    assert [] + [n0] == [n0];
    RunSnoc(s0, [n0], n1, s1, s2);
    assert [n0] + [n1] == Fruits();
  }

  lemma AppleRun(cases: seq<TestCase<Options>>)
    ensures Run(Scan(FruitsScope, cases, []), Apple(), MergeSerialized) == Ok(Scan(AppleScope, cases, AppleArgs))
  {
    var s0, s1 := Scan(FruitsScope, cases, []), Scan(AppleScope, cases, []);
    var s2, s3 := Scan(AppleScope, cases, [] + ["Granny Smith"]), Scan(AppleScope, cases, AppleArgs);
    AppleScopes();
    HeadingStep(s0, 3, "Apple", 10, s1);
    BlockStep(s1, "Granny Smith", 12, s2);
    assert s2.args + ["red"] == AppleArgs;
    BlockStep(s2, "red", 16, s3);
    var n0, n1, n2 := H(3, "Apple", 10), Block("Granny Smith", 12), Block("red", 16);
    RunSnoc(s0, [], n0, s0, s1);
    assert [] + [n0] == [n0];
    RunSnoc(s0, [n0], n1, s1, s2);
    assert [n0] + [n1] == [n0, n1];
    RunSnoc(s0, [n0, n1], n2, s2, s3);
    assert [n0, n1] + [n2] == Apple();
  }

  /** The "Pear" heading emits the "Apple" case. */
  lemma PearRun(cases: seq<TestCase<Options>>)
    ensures Run(Scan(AppleScope, cases, AppleArgs), Pear(), MergeSerialized) ==
      Ok(Scan(PearScope, cases + [NewTestCase(AppleArgs, AppleScope)], PearArgs))
  {
    var emitted := cases + [NewTestCase(AppleArgs, AppleScope)];
    var s0, s1, s2 := Scan(AppleScope, cases, AppleArgs), Scan(PearOpened, emitted, []), Scan(PearScope, emitted, []);
    var s3, s4 := Scan(PearScope, emitted, [] + ["Bartlett"]), Scan(PearScope, emitted, PearArgs);
    PearScopes();
    HeadingStep(s0, 3, "Pear", 20, s1);
    assert MergeSerialized(Options(5, true), "bar = false") == Ok(Options(5, false));
    OptionsStep(s1, "bar = false", 22, Options(5, false), s2);
    BlockStep(s2, "Bartlett", 26, s3);
    assert s3.args + ["yellow"] == PearArgs;
    BlockStep(s3, "yellow", 30, s4);
    var n0, n1, n2, n3 := H(3, "Pear", 20), OptionsBlock("bar = false", 22), Block("Bartlett", 26), Block("yellow", 30);
    RunSnoc(s0, [], n0, s0, s1);
    assert [] + [n0] == [n0];
    RunSnoc(s0, [n0], n1, s1, s2);
    assert [n0] + [n1] == [n0, n1];
    RunSnoc(s0, [n0, n1], n2, s2, s3);
    assert [n0, n1] + [n2] == [n0, n1, n2];
    RunSnoc(s0, [n0, n1, n2], n3, s3, s4);
    assert [n0, n1, n2] + [n3] == Pear();
  }

  /** The "Vegetables" heading emits the "Pear" case. */
  lemma VegetablesRun(cases: seq<TestCase<Options>>)
    ensures Run(Scan(PearScope, cases, PearArgs), Vegetables(), MergeSerialized) ==
      Ok(Scan(VegetablesScope, cases + [NewTestCase(PearArgs, PearScope)], []))
  {
    var emitted := cases + [NewTestCase(PearArgs, PearScope)];
    var s0, s1, s2 := Scan(PearScope, cases, PearArgs), Scan(VegetablesOpened, emitted, []), Scan(VegetablesScope, emitted, []);
    VegetablesScopes();
    HeadingStep(s0, 2, "Vegetables", 34, s1);
    assert MergeSerialized(Options(0, true), "foo = 11") == Ok(Options(11, true));
    OptionsStep(s1, "foo = 11", 36, Options(11, true), s2);
    var n0, n1 := H(2, "Vegetables", 34), OptionsBlock("foo = 11", 36);
    RunSnoc(s0, [], n0, s0, s1);
    assert [] + [n0] == [n0];
    RunSnoc(s0, [n0], n1, s1, s2);
    assert [n0] + [n1] == Vegetables();
  }

  lemma PotatoRun(cases: seq<TestCase<Options>>)
    ensures Run(Scan(VegetablesScope, cases, []), Potato(), MergeSerialized) == Ok(Scan(PotatoScope, cases, PotatoArgs))
  {
    var s0, s1 := Scan(VegetablesScope, cases, []), Scan(PotatoScope, cases, []);
    var s2, s3 := Scan(PotatoScope, cases, [] + ["Russet"]), Scan(PotatoScope, cases, PotatoArgs);
    PotatoScopes();
    HeadingStep(s0, 3, "Potato", 40, s1);
    BlockStep(s1, "Russet", 44, s2);
    assert s2.args + ["brown"] == PotatoArgs;
    BlockStep(s2, "brown", 48, s3);
    var n0, n2, n3 := H(3, "Potato", 40), Block("Russet", 44), Block("brown", 48);
    RunSnoc(s0, [], n0, s0, s1);
    assert [] + [n0] == [n0];
    RunSnoc(s0, [n0], OtherNode, s1, s1);
    assert [n0] + [OtherNode] == [n0, OtherNode];
    RunSnoc(s0, [n0, OtherNode], n2, s1, s2);
    assert [n0, OtherNode] + [n2] == [n0, OtherNode, n2];
    RunSnoc(s0, [n0, OtherNode, n2], n3, s2, s3);
    assert [n0, OtherNode, n2] + [n3] == Potato();
  }

  /** The cases as `TestCase::new` builds them from the fixture's stacks. */
  const AppleCase := NewTestCase(AppleArgs, AppleScope)
  const PearCase := NewTestCase(PearArgs, PearScope)
  const PotatoCase := NewTestCase(PotatoArgs, PotatoScope)

  /** The state the loop over the whole fixture ends in, before the final flush. */
  const LastScan := Scan(PotatoScope, [AppleCase, PearCase], PotatoArgs)

  lemma FixtureRun()
    ensures Run(Initial(Default), Fixture(), MergeSerialized) == Ok(LastScan)
  {
    var m := MergeSerialized;
    var none: seq<TestCase<Options>> := [];
    var s0 := Initial(Default);
    var s1, s2 := Scan(TestsScope, none, []), Scan(FruitsScope, none, []);
    var s3, s4 := Scan(AppleScope, none, AppleArgs), Scan(PearScope, none + [AppleCase], PearArgs);
    var s5 := Scan(VegetablesScope, none + [AppleCase] + [PearCase], []);
    assert none + [AppleCase] + [PearCase] == [AppleCase, PearCase];
    TestsRun(none);
    FruitsRun(none);
    AppleRun(none);
    PearRun(none);
    VegetablesRun(none + [AppleCase]);
    PotatoRun(none + [AppleCase] + [PearCase]);
    RunAppend(s4, Vegetables(), Potato(), m, s5);
    RunAppend(s3, Pear(), Vegetables() + Potato(), m, s4);
    RunAppend(s2, Apple(), Pear() + (Vegetables() + Potato()), m, s3);
    RunAppend(s1, Fruits(), Apple() + (Pear() + (Vegetables() + Potato())), m, s2);
    RunAppend(s0, Tests(), Fruits() + (Apple() + (Pear() + (Vegetables() + Potato()))), m, s1);
  }

  /** The three cases `TestCase::new` builds are the expected ones. */
  lemma CasesAsExpected()
    ensures [AppleCase, PearCase, PotatoCase] == Expected()
  {
    var headings := AppleScope.Headings();
    assert headings == ["Tests", "Fruits", "Apple"];
    assert headings[..2] == ["Tests", "Fruits"];
    assert AppleCase == ApplePear()[0];
    headings := PearScope.Headings();
    assert headings == ["Tests", "Fruits", "Pear"];
    assert headings[..2] == ["Tests", "Fruits"];
    assert PearCase == ApplePear()[1];
    headings := PotatoScope.Headings();
    assert headings == ["Tests", "Vegetables", "Potato"];
    assert headings[..2] == ["Tests", "Vegetables"];
    assert PotatoCase == Expected()[2];
  }

  /** The expected cases of `test_basic`: "Pear" sees its own `bar = false`, and "Potato",
      opened after "Pear" closed, sees `bar = true` again. */
  lemma BasicCases()
    ensures Extract(Fixture(), Default, MergeSerialized) == Ok(Expected())
  {
    FixtureRun();
    CasesAsExpected();
    assert |LastScan.args| == 2;
    assert Flush(LastScan).cases == [AppleCase, PearCase] + [PotatoCase];
    assert [AppleCase, PearCase] + [PotatoCase] == [AppleCase, PearCase, PotatoCase];
  }

  /** An options block the parser refuses aborts the scan with that block's line, and no
      case is returned even though three were complete before it. */
  lemma RefusedOptionsAbort()
    ensures Extract(Fixture() + [OptionsBlock("foo = ", 50)], Default, MergeSerialized)
      == Err(OptionsParseError(50, "invalid TOML"))
  {
    FixtureRun();
    assert (Fixture() + [OptionsBlock("foo = ", 50)])[..|Fixture()|] == Fixture();
    assert LastScan.scope.Options() == Options(11, true);
    assert MergeSerialized(Options(11, true), "foo = ") == Err("invalid TOML");
  }
}
