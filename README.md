# testcase-markdown in Dafny

A model of the `testcase-markdown` crate (the Rust library in `src/lib.rs`). The crate turns a
markdown document into parameterised test cases:

- every heading opens a section that names a test;
- every fenced code block whose meta is `options` changes the options in effect for the
  enclosing section and everything under it (the meta is the part of the info string after
  the language word, as in ```` ```toml options ````);
- every other code block is one argument of the current test.

The model starts from the document's top-level nodes, after the markdown parser has run. It
has these parts:

- `Markdown` (`markdown.dfy`): the parsed nodes the scan looks at. A heading carries its depth,
  its phrasing children and its start line. A code block carries its meta (the info string after the
  language word), its text and its start line. All other nodes are one `OtherNode` kind. `Label` is the first-child rule of
  `push_heading`.
- `Sections` (`sections.dfy`): `Section` and `SectionStack`. The stack's state as a value is
  `Scope`; `Scope.Push`, `Scope.SetOptions`, `Scope.Options` (`get_options`) and
  `Scope.Headings` (`get_headings`) are its operations as functions. The class `SectionStack`
  keeps the same state in two fields. Its methods update those fields in place and are proved
  to produce the state the `Scope` functions describe. `Retained` is what `Vec::retain` leaves.
- `TestCases` (`test_cases.dfy`): `TestCase::new` as `NewTestCase`, the `push_test_case`
  closure, and the scan itself. `Step` is one loop iteration, `Run` the loop, `Extract` the
  whole of `get_test_cases`. The method `GetTestCases` is the loop as the source writes it: it
  drives a `SectionStack` object, an argument buffer and a case list. It is proved equal to
  `Extract`.
- `ExtractionProperties` (`properties.dfy`): what the scan as a whole promises. This covers
  where the data blocks end up, the depth invariant, and exactly when the scan aborts.
- `BasicExample` (`example.dfy`): the crate's `test_basic` test. The document is given as its
  node list, and a two-field options type uses a sparse merge.

The options type is a type parameter. `merge_serialized` is a function value (`Merge<O>`)
supplied by the caller. The two panics of the source become an `Error` result, and an
aborted scan returns no test case at all, as a panicking call returns none.

`push_heading` (src/lib.rs:34) reads only the first child of a heading and ignores any others;
the model follows the code (`Markdown.LabelReadsFirstChildOnly`).

## Model

| member | source | states |
|---|---|---|
| Sections.Retained | src/lib.rs:38 | what `retain` with the test `s.depth < depth` leaves: no more sections than before, every one shallower than `depth` |
| Sections.RetainedIsFilter | src/lib.rs:38 | a section is kept if and only if it was open and is shallower than `depth` |
| Sections.RetainedIsPrefix | src/lib.rs:37-38 | under increasing depths, the kept sections are a prefix of the open ones: every kept one shallower than `depth`, every dropped one at least as deep |
| Sections.Scope.Push | src/lib.rs:37-45 | definition of `push_heading` once the name is known: the root options stay, the top section has the heading's depth, name and line, every section below it is shallower, and the top section's options are those of the section below it, or the root options when there is none; its full characterisation is `PushClosesDeeperSections` |
| Sections.PushClosesDeeperSections | src/lib.rs:37-45 | `push_heading` keeps exactly the open sections shallower than the heading, in order, and puts on top a section with the heading's depth, name and line and the options of the innermost kept section, or the root options when none is kept |
| Sections.PushKeepsIncreasing | src/lib.rs:38-45 | pushing a heading keeps section depths strictly increasing from the outermost section to the innermost |
| Sections.Scope.SetOptions | src/lib.rs:48-54 | the new options are in effect afterwards; with no open section only the root options change; otherwise the root options and every section but the innermost are unchanged, and no depth, name or line changes |
| Sections.SetOptionsKeepsIncreasing | src/lib.rs:48-54 | setting options keeps the depths strictly increasing |
| Sections.ClosingDiscardsOptions | src/lib.rs:38-61 | options set in the innermost section are lost when a heading at most as deep closes it: the stack ends up as if they had never been set, so a later sibling inherits the enclosing scope's options |
| Sections.SectionStack.constructor | src/lib.rs:26-31 | a new stack holds the given root options and no section, and satisfies the depth invariant |
| Sections.SectionStack.PushHeading | src/lib.rs:33-46 | succeeds exactly when the heading's first child is plain text, and then leaves the state `Scope.Push` describes; a malformed heading leaves the stack unchanged; the depth invariant is kept |
| Sections.SectionStack.SetOptions | src/lib.rs:48-54 | leaves the state `Scope.SetOptions` describes and keeps the depth invariant |
| Markdown.Label | src/lib.rs:34-36 | definition of the first-child rule: a name is found only when the first child exists and is plain text, and it is that child's text; otherwise the heading is malformed; see `LabelReadsFirstChildOnly` |
| Markdown.LabelReadsFirstChildOnly | src/lib.rs:34-36 | only a heading's first child decides its name: more children change nothing, and the heading is accepted exactly when that child is plain text |
| TestCases.NewTestCase | src/lib.rs:78-91 | the case holds the given arguments and the options in effect; with no open section it is named "(Unnamed test)" with no headings and line 0; otherwise its headings followed by its name are the open heading names, and its line is the innermost section's line |
| TestCases.Flush | src/lib.rs:106-110 | definition of the `push_test_case` closure on the scan state: a case built from the stack is appended when arguments are pending, the arguments are emptied, the stack is untouched; its run-level consequences are `RunGroupsArguments` and `FlushCompletesGroups` |
| TestCases.Step | src/lib.rs:112-135 | definition of one loop iteration: it fails exactly on a malformed heading or on an options block the merge refuses at the options in effect; another node is skipped; a data block appends its text; the cases only grow, and every case added has arguments |
| TestCases.Run | src/lib.rs:111-136 | definition of the loop, stopping at the first failing node: on success the cases before it are kept as a prefix and every case it adds has arguments; its properties are the lemmas below |
| TestCases.Extract | src/lib.rs:102-138 | definition of `get_test_cases` on parsed nodes, the loop and then the final flush: every case returned has arguments; its properties are `CasesAreNonEmptyGroups`, `ErrorHasCause` and the lemmas beside them |
| TestCases.PushTestCase | src/lib.rs:106-110 | appends a case built from the stack only when arguments are pending, and empties the arguments either way |
| TestCases.GetTestCases | src/lib.rs:102-138 | the loop over the nodes, driving the section stack object, returns exactly what `Extract` specifies, including the aborts |
| TestCases.StepAt | src/lib.rs:111-136 | unfolding helper of `Run`: the loop's state after node `i` is one step from its state before node `i` |
| TestCases.ErrorIsFinal | src/lib.rs:111-136 | once the loop has aborted, the nodes after the failing one change nothing |
| TestCases.AbortAt | src/lib.rs:111-136 | a step that fails at node `i` is the result of the whole loop |
| TestCases.LastStep | src/lib.rs:111-136 | unfolding helper of `Run`: a successful loop over a non-empty list is a successful loop over all but the last node followed by a successful step over the last |
| TestCases.RunAppend | src/lib.rs:111-136 | looping over two stretches of nodes one after the other is looping over the first and then continuing from its state over the second |
| ExtractionProperties.Segments | src/lib.rs:113-132 | the heading-delimited groups of data-block texts number one more than the headings |
| ExtractionProperties.NonEmpty | src/lib.rs:107 | keeps only groups that hold at least one text |
| ExtractionProperties.ConcatNonEmpty | src/lib.rs:107 | dropping the empty groups does not change their concatenation |
| ExtractionProperties.ConcatSegments | src/lib.rs:117-132 | the groups concatenated are the data-block texts in document order |
| ExtractionProperties.RunGroupsArguments | src/lib.rs:106-136 | during the loop, the emitted cases' arguments are the non-empty groups before the current stretch, and the pending arguments are the current stretch's group |
| ExtractionProperties.FlushCompletesGroups | src/lib.rs:137 | the final flush adds the last group when it is non-empty |
| ExtractionProperties.CasesAreNonEmptyGroups | src/lib.rs:106-137 | the emitted cases' argument lists are, in order, the non-empty heading-delimited groups; every case has arguments; their concatenation is exactly the non-options code blocks' texts in document order |
| ExtractionProperties.NoDataNoCases | src/lib.rs:106-137 | a document whose only code blocks are options blocks yields no test case |
| ExtractionProperties.RunKeepsIncreasing | src/lib.rs:29-54 | every state the loop reaches has strictly increasing section depths |
| ExtractionProperties.AbortsOnMalformedHeading | src/lib.rs:34-36 | a heading with no children or a non-text first child aborts the whole extraction once reached, and no case is returned |
| ExtractionProperties.AbortsOnRefusedOptions | src/lib.rs:119-128 | an options block whose text the merge refuses aborts the whole extraction with that block's line and the merge's message, and no case is returned |
| ExtractionProperties.ErrorHasCause | src/lib.rs:113-128 | conversely, every abort comes from a node the loop reached: a malformed heading, or an options block at the reported line whose text the merge refused, at the options in effect there, with the reported message |
| ExtractionProperties.RunSucceeds | src/lib.rs:111-136 | the loop succeeds when every heading is well formed and the merge accepts every options block at the options in effect when the loop reaches it |
| ExtractionProperties.ExtractSucceeds | src/lib.rs:111-138 | with well-formed headings and a merge that accepts every text, the extraction succeeds |
| ExtractionProperties.PushKeepsRoot | src/lib.rs:37-45 | when every open section holds the root options, so does every section after a heading, the new one inheriting them |
| ExtractionProperties.NoOptionsKeepRoot | src/lib.rs:29-136 | in a document without options blocks, every state the loop reaches has the root options in every section and in every case emitted so far |
| ExtractionProperties.NoOptionsRootEverywhere | src/lib.rs:102-138 | a document without options blocks gives every case the root options |
| BasicExample.Overlay | src/lib.rs:156-165 | definition of the test's sparse merge: a key present in the table gives its value, an absent key keeps the current one; see `OverlayIsSparse` |
| BasicExample.MergeSerialized | src/lib.rs:153-167 | definition of the test's `merge_serialized`: refused exactly when the parser refuses the text, with the parser's message; otherwise the table overlaid on the options in effect |
| BasicExample.OverlayIsSparse | src/lib.rs:153-167 | the example's merge changes only the fields the block sets |
| BasicExample.BasicCases | src/lib.rs:169-197 | the `test_basic` document yields exactly the three expected cases: "Apple" and "Pear" under "Tests"/"Fruits" at lines 10 and 20, "Potato" under "Tests"/"Vegetables" at line 40, with their options and arguments |
| BasicExample.RefusedOptionsAbort | src/lib.rs:119-128 | appending an unparsable options block to that document aborts with the block's line, and none of the three completed cases is returned |

## Left out

- `to_mdast` and the check for a root node (src/lib.rs:98-101) are the foreign markdown parser. The model starts from the root's child nodes.
- `position.unwrap()` (src/lib.rs:41, 123): every node carries its start line, so a missing position is not modelled.
- The example's TOML parsing (`toml::from_str`, src/lib.rs:155) is foreign. `BasicExample.ParseTable` is a lookup of the four options texts of the fixture, and every other text is refused. `as_integer`/`as_bool` falling back to the current value on a mistyped key is not modelled.
- Reading `src/test.md` (src/lib.rs:171-172) is file I/O. The file is not part of this model. The fixture in `BasicExample` is rebuilt from the expected output: the heading lines 10, 20 and 40 come from it, and the other lines and the placement of the options blocks were chosen to produce that output.
- Panic message texts (src/lib.rs:35, 124-127): `MalformedHeading` carries no line, like the source's message, and `OptionsParseError` carries the block's line and the merge's message.
- The language word of a code block's info string is dropped, because the scan never reads it: a node carries only the meta part (src/lib.rs:118).
- `depth: u8` and `line: usize` are modelled as `nat`. The scan only compares and copies them, so their width does not matter.
- `Clone` of the options is value copying: `O` is an immutable value type.
- `Scope.Options` and `Scope.Headings` (`get_options`, `get_headings`, src/lib.rs:56-65), and the class's `GetOptions`/`GetHeadings`, carry no contract of their own. What they return is stated through `NewTestCase`, `PushClosesDeeperSections` and `Scope.SetOptions`.
