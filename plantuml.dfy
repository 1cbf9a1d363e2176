/**
 * The PlantUML class-diagram writer: the markup it builds for a namespace
 * tree (as specification functions), the imperative builder that appends
 * to an output string loop by loop, and the create step that hands the
 * document to the rendering backend.
 */
module PlantumlClassDiagram {

  import opened Optional
  import opened Strings
  import opened Descriptors

  /** PHP_EOL on the platforms the writer targets. */
  const Eol: string := "\n"

  /** The layout directives in front of every diagram, up to the blank line before the body. */
  const Header: string :=
    Directives[0] + Eol + Directives[1] + Eol + Directives[2] + Eol + Directives[3] + Eol + Directives[4] + Eol + Eol

  /** The layout directives, one per header line. */
  const Directives: seq<string> := [
    "skinparam shadowing false",
    "skinparam linetype ortho",
    "hide empty members",
    "left to right direction",
    "set namespaceSeparator \\\\"
  ]

  const TraitStereotype: string := " << (T,#FF7700) Trait >>"

  const FailureMessage: string := "Generating the class diagram failed"

  // ----- specification of the markup -----

  /** The escaped name of every reference, in list order. */
  function EscapedNames(refs: seq<Ref>): (names: seq<string>)
    ensures |names| == |refs|
    ensures forall i :: 0 <= i < |refs| ==> names[i] == AddSlashes(RefName(refs[i]))
  {
    if refs == [] then []
    else EscapedNames(refs[..|refs| - 1]) + [AddSlashes(RefName(refs[|refs| - 1]))]
  }


  /** One "uses" edge from the owner (already escaped) to a trait it uses. */
  function UsesLine(used: Ref, owner: string): string {
    AddSlashes(RefName(used)) + " <-- " + owner + " : uses"
  }

  function UsesEdges(traits: seq<Ref>, owner: string): (edges: string)
    ensures edges == "" <==> traits == []
  {
    if traits == [] then ""
    else UsesEdges(traits[..|traits| - 1], owner) + UsesLine(traits[|traits| - 1], owner) + Eol
  }

  function ExtendsClause(parent: Option<Ref>): string {
    match parent
    case None => ""
    case Some(p) => " extends " + AddSlashes(RefName(p))
  }

  /** The lead (" implements " or " extends ") and the comma-joined names, or nothing for no names. */
  function ListClause(lead: string, names: seq<string>): string {
    if names == [] then "" else lead + Join(names, ',')
  }

  function ClassHeader(c: ClassDescriptor): string {
    (if c.isAbstract then "abstract " else "") + "class " + AddSlashes(c.fqsen)
    + ExtendsClause(c.parent) + ListClause(" implements ", EscapedNames(c.interfaces))
  }

  function InterfaceHeader(i: InterfaceDescriptor): string {
    "interface " + AddSlashes(i.fqsen) + ListClause(" extends ", EscapedNames(i.parents))
  }

  function TraitHeader(t: TraitDescriptor): string {
    "class " + AddSlashes(t.fqsen) + TraitStereotype
  }

  /** A block with an empty body, preceded by a blank line. */
  function Block(header: string): string {
    "\n" + header + " {\n}\n"
  }

  function ClassMarkup(c: ClassDescriptor): string {
    UsesEdges(c.usedTraits, AddSlashes(c.fqsen)) + Block(ClassHeader(c))
  }

  function InterfaceMarkup(i: InterfaceDescriptor): string {
    Block(InterfaceHeader(i))
  }

  function TraitMarkup(t: TraitDescriptor): string {
    UsesEdges(t.usedTraits, AddSlashes(t.fqsen)) + Block(TraitHeader(t))
  }

  /** The markup of a list of classes, in list order. */
  function ClassesMarkup(classes: seq<ClassDescriptor>): string {
    if classes == [] then ""
    else ClassesMarkup(classes[..|classes| - 1]) + ClassMarkup(classes[|classes| - 1])
  }

  function InterfacesMarkup(interfaces: seq<InterfaceDescriptor>): string {
    if interfaces == [] then ""
    else InterfacesMarkup(interfaces[..|interfaces| - 1]) + InterfaceMarkup(interfaces[|interfaces| - 1])
  }

  function TraitsMarkup(traits: seq<TraitDescriptor>): string {
    if traits == [] then ""
    else TraitsMarkup(traits[..|traits| - 1]) + TraitMarkup(traits[|traits| - 1])
  }

  /** What a namespace contributes itself: all classes, then all interfaces, then all traits. */
  function OwnMarkup(ns: NamespaceDescriptor): string {
    ClassesMarkup(ns.classes) + InterfacesMarkup(ns.interfaces) + TraitsMarkup(ns.traits)
  }

  /** The markup of a namespace tree: its own part, then each child's markup in child order. */
  function Markup(ns: NamespaceDescriptor): string
    decreases ns, |ns.children| + 1
  {
    OwnMarkup(ns) + ChildrenMarkup(ns, |ns.children|)
  }

  /** The markup of the first n children of ns. */
  function ChildrenMarkup(ns: NamespaceDescriptor, n: nat): string
    requires n <= |ns.children|
    decreases ns, n
  {
    if n == 0 then "" else ChildrenMarkup(ns, n - 1) + ChildMarkup(ns, n - 1)
  }

  /** The markup of child k of ns. */
  function ChildMarkup(ns: NamespaceDescriptor, k: nat): string
    requires k < |ns.children|
    decreases ns, k
  {
    Markup(ns.children[k])
  }

  /** The whole document handed to the backend. */
  function Document(root: NamespaceDescriptor): string {
    Header + Markup(root)
  }

  // ----- the writer -----

  /** What the backend returned is unusable when it is null or false, "" or "0". */
  predicate Falsy(output: Option<string>) {
    output.None? || output.value == "" || output.value == "0"
  }

  /** The observable effect of create: nothing, a logged error, or a file write. */
  datatype Outcome = Skipped | Failed(message: string) | Written(filename: string, contents: string)

  /**
   * create: skip any set that is not an API set; otherwise render the
   * document through the backend, log the failure message when the result
   * is falsy and write the result to the file otherwise.
   */
  method Create(documentationSet: DocumentationSet, filename: string, backend: string -> Option<string>)
    returns (outcome: Outcome)
    ensures !documentationSet.ApiSet? ==> outcome == Skipped
    ensures documentationSet.ApiSet? ==>
      var output := backend(Document(documentationSet.namespace));
      outcome == if Falsy(output) then Failed(FailureMessage) else Written(filename, output.value)
  {
    if !documentationSet.ApiSet? {
      return Skipped;
    }
    var body := RenderNamespace(documentationSet.namespace);
    var output := backend(Header + body);
    if Falsy(output) {
      return Failed(FailureMessage);
    }
    outcome := Written(filename, output.value);
  }

  /** One more class of a prefix adds its markup at the end. */
  lemma ClassesMarkupStep(output: string, classes: seq<ClassDescriptor>, i: nat)
    requires i < |classes|
    ensures (output + ClassesMarkup(classes[..i])) + ClassMarkup(classes[i]) == output + ClassesMarkup(classes[..i + 1])
  {
    assert classes[..i + 1][..i] == classes[..i];
  }

  lemma InterfacesMarkupStep(output: string, interfaces: seq<InterfaceDescriptor>, i: nat)
    requires i < |interfaces|
    ensures (output + InterfacesMarkup(interfaces[..i])) + InterfaceMarkup(interfaces[i]) == output + InterfacesMarkup(interfaces[..i + 1])
  {
    assert interfaces[..i + 1][..i] == interfaces[..i];
  }

  lemma TraitsMarkupStep(output: string, traits: seq<TraitDescriptor>, i: nat)
    requires i < |traits|
    ensures (output + TraitsMarkup(traits[..i])) + TraitMarkup(traits[i]) == output + TraitsMarkup(traits[..i + 1])
  {
    assert traits[..i + 1][..i] == traits[..i];
  }


  lemma UsesEdgesStep(traits: seq<Ref>, k: nat, owner: string)
    requires k < |traits|
    ensures UsesEdges(traits[..k + 1], owner) == UsesEdges(traits[..k], owner) + (UsesLine(traits[k], owner) + Eol)
  {
    assert traits[..k + 1][..k] == traits[..k];
  }

  /** Append one "uses" edge per trait, in order, to the output. */
  method AppendUsesEdges(output: string, traits: seq<Ref>, owner: string) returns (result: string)
    ensures result == output + UsesEdges(traits, owner)
  {
    result := output;
    var k := 0;
    while k < |traits|
      invariant 0 <= k <= |traits|
      invariant result == output + UsesEdges(traits[..k], owner)
    {
      var parentFqsen := RefName(traits[k]);
      var edge := AddSlashes(parentFqsen) + " <-- " + owner + " : uses";
      UsesEdgesStep(traits, k, owner);
      AppendAssociates(output, UsesEdges(traits[..k], owner), edge + Eol);
      AppendAssociates(result, edge, Eol);
      result := result + edge + Eol;
      k := k + 1;
    }
    assert traits[..k] == traits;
  }

  lemma EscapedNamesStep(refs: seq<Ref>, j: nat)
    requires j < |refs|
    ensures EscapedNames(refs[..j + 1]) == EscapedNames(refs[..j]) + [AddSlashes(RefName(refs[j]))]
  {
    assert refs[..j + 1][..j] == refs[..j];
  }

  lemma ChildrenMarkupStep(own: string, output: string, childOutput: string, ns: NamespaceDescriptor, i: nat)
    requires i < |ns.children|
    requires output == own + ChildrenMarkup(ns, i)
    requires childOutput == Markup(ns.children[i])
    ensures output + childOutput == own + ChildrenMarkup(ns, i + 1)
  {
  }

  lemma ChildrenMarkupStart(own: string, ns: NamespaceDescriptor)
    ensures own == own + ChildrenMarkup(ns, 0)
  {
  }

  lemma MarkupOfParts(ns: NamespaceDescriptor, own: string, output: string)
    requires own == OwnMarkup(ns)
    requires output == own + ChildrenMarkup(ns, |ns.children|)
    ensures output == Markup(ns)
  {
  }

  /** Collect the escaped names of a reference list, in order. */
  method CollectNames(refs: seq<Ref>) returns (names: seq<string>)
    ensures names == EscapedNames(refs)
  {
    names := [];
    var j := 0;
    while j < |refs|
      invariant 0 <= j <= |refs|
      invariant names == EscapedNames(refs[..j])
    {
      var parentFqsen := RefName(refs[j]);
      EscapedNamesStep(refs, j);
      names := names + [AddSlashes(parentFqsen)];
      j := j + 1;
    }
    assert refs[..j] == refs;
  }

  /** The body of the class loop: a class's "uses" edges, then its block. */
  method AppendClass(output: string, cls: ClassDescriptor) returns (result: string)
    ensures result == output + ClassMarkup(cls)
  {
    var abstractMarker := if cls.isAbstract then "abstract " else "";
    var className := AddSlashes(cls.fqsen);

    var extendsClause := "";
    if cls.parent.Some? {
      var parentFqsen := RefName(cls.parent.value);
      extendsClause := " extends " + AddSlashes(parentFqsen);
    }

    var implementsList := CollectNames(cls.interfaces);
    var implementsClause := "";
    if implementsList != [] {
      implementsClause := " implements " + Join(implementsList, ',');
    }

    var header := abstractMarker + "class " + className + extendsClause + implementsClause;
    assert header == ClassHeader(cls);
    var block := "\n" + header + " {\n}\n";
    result := AppendUsesEdges(output, cls.usedTraits, className);
    AppendAssociates(output, UsesEdges(cls.usedTraits, className), block);
    result := result + block;
  }

  /** The body of the interface loop: an interface's block. */
  method AppendInterface(output: string, iface: InterfaceDescriptor) returns (result: string)
    ensures result == output + InterfaceMarkup(iface)
  {
    var interfaceName := AddSlashes(iface.fqsen);
    var implementsList := CollectNames(iface.parents);
    var implementsClause := "";
    if implementsList != [] {
      implementsClause := " extends " + Join(implementsList, ',');
    }
    var header := "interface " + interfaceName + implementsClause;
    assert header == InterfaceHeader(iface);
    result := output + "\n" + header + " {\n}\n";
  }

  /** The body of the trait loop: a trait's own "uses" edges, then its block. */
  method AppendTrait(output: string, traitDescriptor: TraitDescriptor) returns (result: string)
    ensures result == output + TraitMarkup(traitDescriptor)
  {
    var className := AddSlashes(traitDescriptor.fqsen);
    var header := "class " + className + TraitStereotype;
    var block := "\n" + header + " {\n}\n";
    result := AppendUsesEdges(output, traitDescriptor.usedTraits, className);
    AppendAssociates(output, UsesEdges(traitDescriptor.usedTraits, className), block);
    result := result + block;
  }

  /** The class loop: every class of the namespace, in registry order. */
  method AppendClasses(output: string, classes: seq<ClassDescriptor>) returns (result: string)
    ensures result == output + ClassesMarkup(classes)
  {
    result := output;
    var i := 0;
    while i < |classes|
      invariant 0 <= i <= |classes|
      invariant result == output + ClassesMarkup(classes[..i])
    {
      ClassesMarkupStep(output, classes, i);
      result := AppendClass(result, classes[i]);
      i := i + 1;
    }
    assert classes[..i] == classes;
  }

  /** The interface loop: every interface of the namespace, in registry order. */
  method AppendInterfaces(output: string, interfaces: seq<InterfaceDescriptor>) returns (result: string)
    ensures result == output + InterfacesMarkup(interfaces)
  {
    result := output;
    var i := 0;
    while i < |interfaces|
      invariant 0 <= i <= |interfaces|
      invariant result == output + InterfacesMarkup(interfaces[..i])
    {
      InterfacesMarkupStep(output, interfaces, i);
      result := AppendInterface(result, interfaces[i]);
      i := i + 1;
    }
    assert interfaces[..i] == interfaces;
  }

  /** The trait loop: every trait of the namespace, in registry order. */
  method AppendTraits(output: string, traits: seq<TraitDescriptor>) returns (result: string)
    ensures result == output + TraitsMarkup(traits)
  {
    result := output;
    var i := 0;
    while i < |traits|
      invariant 0 <= i <= |traits|
      invariant result == output + TraitsMarkup(traits[..i])
    {
      TraitsMarkupStep(output, traits, i);
      result := AppendTrait(result, traits[i]);
      i := i + 1;
    }
    assert traits[..i] == traits;
  }

  /** The namespace's own part: its classes, then its interfaces, then its traits. */
  method RenderOwn(ns: NamespaceDescriptor) returns (output: string)
    ensures output == OwnMarkup(ns)
  {
    output := "";
    output := AppendClasses(output, ns.classes);
    assert output == ClassesMarkup(ns.classes);
    output := AppendInterfaces(output, ns.interfaces);
    output := AppendTraits(output, ns.traits);
  }

  /**
   * Render one namespace: its own classes, interfaces and traits, then
   * every child namespace, depth first.
   */
  method RenderNamespace(ns: NamespaceDescriptor) returns (output: string)
    ensures output == Markup(ns)
    decreases ns, 2
  {
    var own := RenderOwn(ns);
    output := AppendChildren(own, ns);
    MarkupOfParts(ns, own, output);
  }

  /** Append the markup of every child namespace of `ns`, in order. */
  method AppendChildren(own: string, ns: NamespaceDescriptor) returns (output: string)
    ensures output == own + ChildrenMarkup(ns, |ns.children|)
    decreases ns, 1
  {
    output := own;
    ChildrenMarkupStart(own, ns);
    var i := 0;
    while i < |ns.children|
      invariant 0 <= i <= |ns.children|
      invariant output == own + ChildrenMarkup(ns, i)
    {
      output := AppendChild(own, output, ns, i);
      i := i + 1;
    }
  }

  /** Render child `i` of `ns` and append it to what the children before it produced. */
  method AppendChild(own: string, output: string, ns: NamespaceDescriptor, i: nat) returns (result: string)
    requires i < |ns.children|
    requires output == own + ChildrenMarkup(ns, i)
    ensures result == own + ChildrenMarkup(ns, i + 1)
    decreases ns, 0
  {
    var childOutput := RenderNamespace(ns.children[i]);
    ChildrenMarkupStep(own, output, childOutput, ns, i);
    result := output + childOutput;
  }
}
