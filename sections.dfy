/** The open heading scopes of the scan (src/lib.rs, `Section` and `SectionStack`).
    `Scope` is the stack's state as a value, with the operations as functions; the
    class `SectionStack` holds the same state in fields and updates it in place. */
module Sections {
  import opened Markdown

  /** One open heading scope, with the options in effect inside it. */
  datatype Section<O> = Section(depth: nat, name: string, line: nat, options: O)

  function Last<T>(s: seq<T>): T
    requires |s| > 0
  {
    s[|s| - 1]
  }

  /** What `Vec::retain(|s| s.depth < depth)` leaves: the sections shallower than `depth`. */
  function Retained<O>(sections: seq<Section<O>>, depth: nat): (kept: seq<Section<O>>)
    ensures |kept| <= |sections|
    ensures forall i :: 0 <= i < |kept| ==> kept[i].depth < depth
  {
    if sections == [] then []
    else
      var front := sections[..|sections| - 1];
      assert sections == front + [Last(sections)];
      var rest := Retained(front, depth);
      if Last(sections).depth < depth then rest + [Last(sections)] else rest
  }

  /** A section survives the retain exactly when it was open and is shallower than `depth`. */
  lemma {:induction false} RetainedIsFilter<O>(sections: seq<Section<O>>, depth: nat)
    ensures forall x :: x in Retained(sections, depth) <==> x in sections && x.depth < depth
  {
    if sections != [] {
      var front, x := sections[..|sections| - 1], Last(sections);
      RetainedIsFilter(front, depth);
      assert sections == front + [x];
    }
  }

  /** Depths strictly increase from the outermost section to the innermost. */
  ghost predicate Increasing<O>(sections: seq<Section<O>>) {
    forall i, j :: 0 <= i < j < |sections| ==> sections[i].depth < sections[j].depth
  }

  /** The state of a section stack: the root options and the open sections, outermost first. */
  datatype Scope<O> = Scope(rootOptions: O, sections: seq<Section<O>>) {

    /** `get_options`: the innermost section's options, or the root options. */
    function Options(): O {
      if sections == [] then rootOptions else Last(sections).options
    }

    /** `get_headings`: the open heading names, outermost first. */
    function Headings(): seq<string> {
      seq(|sections|, i requires 0 <= i < |sections| => sections[i].name)
    }

    /** `push_heading` once the name is known: close every section at least as deep,
        then open a new one holding the options in effect after the closing. */
    function Push(depth: nat, name: string, line: nat): (r: Scope<O>)
      ensures r.rootOptions == rootOptions
      ensures 0 < |r.sections| <= |sections| + 1
      ensures Last(r.sections).depth == depth && Last(r.sections).name == name && Last(r.sections).line == line
      ensures forall i :: 0 <= i < |r.sections| - 1 ==> r.sections[i].depth < depth
      ensures Last(r.sections).options ==
        if |r.sections| == 1 then rootOptions else r.sections[|r.sections| - 2].options
    {
      var kept := Retained(sections, depth);
      Scope(rootOptions, kept + [Section(depth, name, line, Scope(rootOptions, kept).Options())])
    }

    /** `set_options`: replaces the innermost section's options, or the root options. */
    function SetOptions(options: O): (r: Scope<O>)
      ensures r.Options() == options
      ensures |r.sections| == |sections|
      ensures sections == [] ==> r.rootOptions == options
      ensures sections != [] ==> r.rootOptions == rootOptions
      ensures forall i :: 0 <= i < |sections| ==>
                r.sections[i].depth == sections[i].depth &&
                r.sections[i].name == sections[i].name &&
                r.sections[i].line == sections[i].line
      ensures forall i :: 0 <= i < |sections| - 1 ==> r.sections[i] == sections[i]
    {
      if sections == [] then Scope(options, sections)
      else Scope(rootOptions, sections[..|sections| - 1] + [Last(sections).(options := options)])
    }
  }

  /** Under the depth invariant the sections that survive a heading of depth `depth` are a
      prefix of the open sections: all of them shallower, and every dropped one at least
      as deep. */
  lemma {:induction false} RetainedIsPrefix<O>(sections: seq<Section<O>>, depth: nat)
    requires Increasing(sections)
    ensures var k := |Retained(sections, depth)|;
      Retained(sections, depth) == sections[..k] &&
      (forall i :: 0 <= i < k ==> sections[i].depth < depth) &&
      (forall i :: k <= i < |sections| ==> depth <= sections[i].depth)
  {
    if sections != [] {
      var front, x := sections[..|sections| - 1], Last(sections);
      assert Increasing(front);
      RetainedIsPrefix(front, depth);
      var k := |Retained(front, depth)|;
      assert sections == front + [x];
      if x.depth < depth {
        assert k == |front|;
      }
    }
  }

  /** `push_heading` keeps exactly the open sections shallower than the new heading, in their
      order, and puts on top a section whose options are those of the innermost kept
      section, or the root options when none is kept: the options of the enclosing scope. */
  lemma PushClosesDeeperSections<O>(scope: Scope<O>, depth: nat, name: string, line: nat)
    requires Increasing(scope.sections)
    ensures var k := |Retained(scope.sections, depth)|;
      var inherited := if k == 0 then scope.rootOptions else scope.sections[k - 1].options;
      k <= |scope.sections| &&
      (forall i :: 0 <= i < k ==> scope.sections[i].depth < depth) &&
      (forall i :: k <= i < |scope.sections| ==> depth <= scope.sections[i].depth) &&
      scope.Push(depth, name, line) ==
        Scope(scope.rootOptions, scope.sections[..k] + [Section(depth, name, line, inherited)])
  {
    RetainedIsPrefix(scope.sections, depth);
  }

  /** Pushing a heading keeps the depths increasing. */
  lemma PushKeepsIncreasing<O>(scope: Scope<O>, depth: nat, name: string, line: nat)
    requires Increasing(scope.sections)
    ensures Increasing(scope.Push(depth, name, line).sections)
  {
    PushClosesDeeperSections(scope, depth, name, line);
  }

  /** Setting options leaves every depth as it was, so the invariant is kept. */
  lemma SetOptionsKeepsIncreasing<O>(scope: Scope<O>, options: O)
    requires Increasing(scope.sections)
    ensures Increasing(scope.SetOptions(options).sections)
  {
  }

  /** Options set inside the innermost section are dropped with it: a heading that closes
      that section sees the same state as if the options had never been set. This is why
      a later sibling does not inherit them. */
  lemma {:induction false} ClosingDiscardsOptions<O>(scope: Scope<O>, options: O, depth: nat, name: string, line: nat)
    requires scope.sections != [] && depth <= Last(scope.sections).depth
    ensures scope.SetOptions(options).Push(depth, name, line) == scope.Push(depth, name, line)
  {
    var changed := scope.SetOptions(options).sections;
    var front := scope.sections[..|scope.sections| - 1];
    assert changed == front + [Last(changed)];
    assert scope.sections == front + [Last(scope.sections)];
    assert changed[..|changed| - 1] == front;
    assert Retained(changed, depth) == Retained(front, depth);
    assert Retained(scope.sections, depth) == Retained(front, depth);
  }

  /** The section stack of the scan, updated in place (`SectionStack` in src/lib.rs). */
  class SectionStack<O> {
    var rootOptions: O
    var sections: seq<Section<O>>

    /** The stack's state as a value. */
    function State(): Scope<O>
      reads this
    {
      Scope(rootOptions, sections)
    }

    ghost predicate Valid()
      reads this
    {
      Increasing(sections)
    }

    constructor (rootOptions: O)
      ensures Valid()
      ensures State() == Scope(rootOptions, [])
    {
      this.rootOptions := rootOptions;
      sections := [];
    }

    function GetOptions(): O
      reads this
    {
      State().Options()
    }

    function GetHeadings(): seq<string>
      reads this
    {
      State().Headings()
    }

    /** Opens the section of `heading`. A heading without a plain-text first child is
        refused (`ok` is false) and the stack is left as it was. */
    method PushHeading(heading: Heading) returns (ok: bool)
      requires Valid()
      modifies this
      ensures Valid()
      ensures ok <==> Label(heading).Some?
      ensures ok ==> State() == old(State()).Push(heading.depth, Label(heading).value, heading.line)
      ensures !ok ==> State() == old(State())
    {
      var name := Label(heading);
      if name.None? {
        return false;
      }
      PushKeepsIncreasing(State(), heading.depth, name.value, heading.line);
      var depth := heading.depth;
      sections := Retained(sections, depth);
      var section := Section(depth, name.value, heading.line, GetOptions());
      sections := sections + [section];
      ok := true;
    }

    method SetOptions(options: O)
      requires Valid()
      modifies this
      ensures Valid()
      ensures State() == old(State()).SetOptions(options)
    {
      SetOptionsKeepsIncreasing(State(), options);
      if |sections| > 0 {
        sections := sections[..|sections| - 1] + [Last(sections).(options := options)];
      } else {
        rootOptions := options;
      }
    }
  }
}
