/** The part of the markdown syntax tree that the scan looks at. The tree itself comes
    from a foreign parser; here a document is already the flat list of its top-level
    block nodes, each carrying the line it starts on. */
module Markdown {
  import opened Wrappers

  /** Inline content of a heading. Only plain text matters to the scan; emphasis,
      links, images, inline code and the rest are all `OtherPhrasing`. */
  datatype Phrasing = Text(value: string) | OtherPhrasing

  /** A heading: its level, its inline children and its start line. */
  datatype Heading = Heading(depth: nat, children: seq<Phrasing>, line: nat)

  /** A fenced code block: the meta part of its info string, its text and its start line. */
  datatype Code = Code(meta: Option<string>, value: string, line: nat)

  datatype Node = HeadingNode(heading: Heading) | CodeNode(code: Code) | OtherNode

  /** The meta tag that marks a code block as an options block. */
  const OptionsMeta: string := "options"

  predicate IsOptionsBlock(code: Code) {
    code.meta == Some(OptionsMeta)
  }

  /** A code block whose text becomes a test-case argument. */
  predicate IsDataBlock(node: Node) {
    node.CodeNode? && !IsOptionsBlock(node.code)
  }

  /** The heading's name: the value of its first child when that child is plain text,
      and None (the scan aborts) when it has no children or the first is not text. */
  function Label(heading: Heading): (name: Option<string>)
    ensures name.Some? ==> |heading.children| > 0 && heading.children[0] == Text(name.value)
    ensures name.None? ==> |heading.children| == 0 || heading.children[0].OtherPhrasing?
  {
    if |heading.children| == 0 then None
    else match heading.children[0]
      case Text(value) => Some(value)
      case OtherPhrasing => None
  }

  /** Only the first child is consulted: whatever follows it does not change the label. */
  lemma LabelReadsFirstChildOnly(heading: Heading, more: seq<Phrasing>)
    requires |heading.children| > 0
    ensures Label(heading.(children := heading.children + more)) == Label(heading)
    ensures Label(heading).Some? <==> heading.children[0].Text?
  {
  }
}
