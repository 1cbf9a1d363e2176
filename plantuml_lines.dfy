/**
 * The line structure of the class-diagram markup. Cut at line breaks, a
 * class's markup is one "uses" edge per used trait, in the order the
 * traits are listed, followed at once by the class block: a blank line,
 * the header with its opening brace, and the closing brace. A trait's
 * markup has the same shape, and an interface's markup is its block alone.
 */
module DiagramLines {

  import opened Optional
  import opened Strings
  import opened Descriptors
  import opened PlantumlClassDiagram
  import opened DiagramReading

  /**
   * The header is the five layout directives, one per line, then a blank
   * line; the namespace markup starts on the line after it.
   */
  lemma HeaderLines()
    ensures Split(Header, '\n') == Directives + ["", ""]
  {
    var d := Directives;
    DirectivesSingle();
    FiveLines(d[0], d[1], d[2], d[3], d[4]);
  }

  lemma DirectivesSingle()
    ensures forall i :: 0 <= i < |Directives| ==> '\n' !in Directives[i]
  {
  }

  /** Five lines without line breaks, each ended by one, and one more line break. */
  lemma FiveLines(a: string, b: string, c: string, d: string, e: string)
    requires '\n' !in a && '\n' !in b && '\n' !in c && '\n' !in d && '\n' !in e
    ensures Split(a + Eol + b + Eol + c + Eol + d + Eol + e + Eol + Eol, '\n') == [a, b, c, d, e, "", ""]
  {
    var r5 := [] + ['\n'] + [];
    var r4 := e + ['\n'] + r5;
    var r3 := d + ['\n'] + r4;
    var r2 := c + ['\n'] + r3;
    var r1 := b + ['\n'] + r2;
    assert a + Eol + b + Eol + c + Eol + d + Eol + e + Eol + Eol == a + ['\n'] + r1;
    SplitAt([], [], '\n');
    SplitAt(e, r5, '\n');
    SplitAt(d, r4, '\n');
    SplitAt(c, r3, '\n');
    SplitAt(b, r2, '\n');
    SplitAt(a, r1, '\n');
  }

  /** The "uses" edge lines of an owner, one per trait, in list order. */
  function UsesLines(traits: seq<Ref>, owner: string): (lines: seq<string>)
    ensures |lines| == |traits|
    ensures forall i :: 0 <= i < |traits| ==> lines[i] == UsesLine(traits[i], owner)
  {
    if traits == [] then []
    else UsesLines(traits[..|traits| - 1], owner) + [UsesLine(traits[|traits| - 1], owner)]
  }

  /** The lines of a block with an empty body. */
  function BlockLines(header: string): seq<string> {
    ["", header + " {", "}", ""]
  }

  lemma UsesLineSingle(used: Ref, owner: string)
    requires Bare(RefName(used)) && '\n' !in owner
    ensures '\n' !in UsesLine(used, owner)
  {
    AddSlashesKeeps(RefName(used), '\n');
    assert '\n' !in " <-- " && '\n' !in " : uses";
  }

  lemma LineThenRest(prefix: string, line: string, rest: string)
    ensures prefix + line + Eol + rest == prefix + (line + ['\n'] + rest)
  {
  }

  /** Edge lines in front of any rest: the edges come out one line each, then the rest's lines. */
  lemma {:induction false} UsesEdgesSplit(traits: seq<Ref>, owner: string, rest: string)
    requires '\n' !in owner && BareRefs(traits)
    ensures Split(UsesEdges(traits, owner) + rest, '\n') == UsesLines(traits, owner) + Split(rest, '\n')
    decreases |traits|
  {
    if traits == [] {
      assert UsesEdges(traits, owner) + rest == rest;
    } else {
      var init := traits[..|traits| - 1];
      var line := UsesLine(traits[|traits| - 1], owner);
      UsesLineSingle(traits[|traits| - 1], owner);
      assert BareRefs(init);
      UsesEdgesSplit(init, owner, line + ['\n'] + rest);
      SplitAt(line, rest, '\n');
      LineThenRest(UsesEdges(init, owner), line, rest);
      assert UsesLines(init, owner) + ([line] + Split(rest, '\n')) == UsesLines(traits, owner) + Split(rest, '\n');
    }
  }

  /** A block on a header without line breaks is exactly four lines. */
  lemma BlockSplit(header: string)
    requires '\n' !in header
    ensures Split(Block(header), '\n') == BlockLines(header)
  {
    var opening := header + " {";
    assert '\n' !in " {";
    assert Block(header) == [] + ['\n'] + (opening + ['\n'] + ("}" + ['\n'] + []));
    SplitAt([], opening + ['\n'] + ("}" + ['\n'] + []), '\n');
    SplitAt(opening, "}" + ['\n'] + [], '\n');
    SplitAt("}", [], '\n');
  }

  lemma EscapedSingle(name: string)
    requires Bare(name)
    ensures '\n' !in AddSlashes(name)
  {
    AddSlashesKeeps(name, '\n');
  }

  lemma ListClauseSingle(lead: string, refs: seq<Ref>)
    requires '\n' !in lead && BareRefs(refs)
    ensures '\n' !in ListClause(lead, EscapedNames(refs))
  {
    var names := EscapedNames(refs);
    EscapedNamesBare(refs);
    JoinExcludes(names, ',', '\n');
  }

  lemma ExtendsClauseSingle(parent: Option<Ref>)
    requires parent.Some? ==> Bare(RefName(parent.value))
    ensures '\n' !in ExtendsClause(parent)
  {
    if parent.Some? {
      EscapedSingle(RefName(parent.value));
      assert '\n' !in " extends ";
    }
  }

  lemma ClassHeaderSingle(c: ClassDescriptor)
    requires BareClass(c)
    ensures '\n' !in ClassHeader(c)
  {
    EscapedSingle(c.fqsen);
    ExtendsClauseSingle(c.parent);
    assert '\n' !in " implements ";
    ListClauseSingle(" implements ", c.interfaces);
    assert '\n' !in "abstract " && '\n' !in "class ";
  }

  /**
   * A class's markup, line by line: one "uses" edge per used trait in list
   * order, and right after the last of them the class block.
   */
  lemma ClassMarkupLines(c: ClassDescriptor)
    requires BareClass(c) && BareRefs(c.usedTraits)
    ensures Split(ClassMarkup(c), '\n') == UsesLines(c.usedTraits, AddSlashes(c.fqsen)) + BlockLines(ClassHeader(c))
  {
    EscapedSingle(c.fqsen);
    ClassHeaderSingle(c);
    UsesEdgesSplit(c.usedTraits, AddSlashes(c.fqsen), Block(ClassHeader(c)));
    BlockSplit(ClassHeader(c));
  }

  lemma InterfaceHeaderSingle(i: InterfaceDescriptor)
    requires BareInterface(i)
    ensures '\n' !in InterfaceHeader(i)
  {
    EscapedSingle(i.fqsen);
    assert '\n' !in " extends ";
    ListClauseSingle(" extends ", i.parents);
    assert '\n' !in "interface ";
  }

  /** An interface's markup is its block alone: no edge lines. */
  lemma InterfaceMarkupLines(i: InterfaceDescriptor)
    requires BareInterface(i)
    ensures Split(InterfaceMarkup(i), '\n') == BlockLines(InterfaceHeader(i))
  {
    InterfaceHeaderSingle(i);
    BlockSplit(InterfaceHeader(i));
  }

  lemma TraitHeaderSingle(t: TraitDescriptor)
    requires Bare(t.fqsen)
    ensures '\n' !in TraitHeader(t)
  {
    EscapedSingle(t.fqsen);
    assert '\n' !in "class " && '\n' !in TraitStereotype;
  }

  /** A trait's markup, line by line: its own "uses" edges in order, then its stereotyped block. */
  lemma TraitMarkupLines(t: TraitDescriptor)
    requires Bare(t.fqsen) && BareRefs(t.usedTraits)
    ensures Split(TraitMarkup(t), '\n') == UsesLines(t.usedTraits, AddSlashes(t.fqsen)) + BlockLines(TraitHeader(t))
  {
    EscapedSingle(t.fqsen);
    TraitHeaderSingle(t);
    UsesEdgesSplit(t.usedTraits, AddSlashes(t.fqsen), Block(TraitHeader(t)));
    BlockSplit(TraitHeader(t));
  }
}
