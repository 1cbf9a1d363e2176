/**
 * Reading the class-diagram markup back. A block header is a line of
 * words separated by single spaces and a "uses" edge is a line of its own,
 * so as long as no name holds a space, a comma or a line break the markup
 * can be parsed again. The lemmas here show that parsing gives back
 * exactly the descriptor's own data: which clauses are present, the names
 * in list order, and each name unescaped on its own.
 */
module DiagramReading {

  import opened Optional
  import opened Strings
  import opened Descriptors
  import opened PlantumlClassDiagram

  /** A name with no space, comma or line break, so a header can be cut back into words (PHP names never hold one). */
  predicate Bare(name: string) {
    ' ' !in name && ',' !in name && '\n' !in name
  }

  predicate BareRefs(refs: seq<Ref>) {
    forall i :: 0 <= i < |refs| ==> Bare(RefName(refs[i]))
  }

  /** The names of references, in order. */
  function RefNames(refs: seq<Ref>): seq<string> {
    seq(|refs|, i requires 0 <= i < |refs| => RefName(refs[i]))
  }

  /** stripslashes applied to each name on its own. */
  function Unescaped(names: seq<string>): seq<string> {
    seq(|names|, i requires 0 <= i < |names| => StripSlashes(names[i]))
  }

  lemma EscapeKeepsBare(s: string)
    requires Bare(s)
    ensures Bare(AddSlashes(s))
  {
    AddSlashesKeeps(s, ' ');
    AddSlashesKeeps(s, ',');
    AddSlashesKeeps(s, '\n');
  }

  lemma EscapedNamesBare(refs: seq<Ref>)
    requires BareRefs(refs)
    ensures forall i :: 0 <= i < |refs| ==> Bare(EscapedNames(refs)[i])
  {
    forall i | 0 <= i < |refs|
      ensures Bare(EscapedNames(refs)[i])
    {
      EscapeKeepsBare(RefName(refs[i]));
    }
  }

  /** Each entry of an implements or extends list unescapes to the name it was built from. */
  lemma UnescapeNames(refs: seq<Ref>)
    ensures Unescaped(EscapedNames(refs)) == RefNames(refs)
  {
    forall i | 0 <= i < |refs|
      ensures Unescaped(EscapedNames(refs))[i] == RefNames(refs)[i]
    {
      StripAddSlashes(RefName(refs[i]));
    }
  }

  /** The comma-joined list, cut at the commas and unescaped entry by entry, is the list of names. */
  lemma ReadNameList(refs: seq<Ref>)
    requires refs != [] && BareRefs(refs)
    ensures Unescaped(Split(Join(EscapedNames(refs), ','), ',')) == RefNames(refs)
  {
    EscapedNamesBare(refs);
    SplitJoin(EscapedNames(refs), ',');
    UnescapeNames(refs);
  }

  // ----- words of a header -----

  /** The words of a list clause after the word in front of it. */
  function ListWords(keyword: string, names: seq<string>): seq<string> {
    if names == [] then [] else [keyword, Join(names, ',')]
  }

  lemma ListClauseWords(word: string, lead: string, keyword: string, names: seq<string>)
    requires lead == [' '] + keyword + [' ']
    requires ' ' !in word && ' ' !in keyword
    requires forall i :: 0 <= i < |names| ==> Bare(names[i])
    ensures Split(word + ListClause(lead, names), ' ') == [word] + ListWords(keyword, names)
  {
    if names == [] {
      assert word + ListClause(lead, names) == word;
      SplitWithout(word, ' ');
    } else {
      var list := Join(names, ',');
      JoinExcludes(names, ',', ' ');
      SplitWithout(list, ' ');
      SpacedWords(word, lead, keyword, list);
    }
  }

  lemma ImplementsWords(word: string, names: seq<string>)
    requires ' ' !in word
    requires forall i :: 0 <= i < |names| ==> Bare(names[i])
    ensures Split(word + ListClause(" implements ", names), ' ') == [word] + ListWords("implements", names)
  {
    SpacedLiteral(" implements ", "implements");
    ListClauseWords(word, " implements ", "implements", names);
  }

  /** The two keyword leads are their keyword between single spaces. */
  lemma SpacedLiteral(lead: string, keyword: string)
    requires (lead == " implements " && keyword == "implements") || (lead == " extends " && keyword == "extends")
    ensures lead == [' '] + keyword + [' '] && ' ' !in keyword
  {
  }

  /** A word, then a keyword between single spaces, then the rest. */
  lemma SpacedWords(word: string, lead: string, keyword: string, rest: string)
    requires lead == [' '] + keyword + [' ']
    requires ' ' !in word && ' ' !in keyword
    ensures Split(word + (lead + rest), ' ') == [word, keyword] + Split(rest, ' ')
  {
    assert word + (lead + rest) == word + [' '] + (keyword + [' '] + rest);
    SplitAt(keyword, rest, ' ');
    SplitAt(word, keyword + [' '] + rest, ' ');
  }

  /** The words of an extends clause: none, or the keyword and the escaped parent. */
  function ExtendsWords(parent: Option<Ref>): seq<string> {
    match parent
    case None => []
    case Some(p) => ["extends", AddSlashes(RefName(p))]
  }

  /** The words of a class header after the word "class". */
  lemma ClassTailWords(name: string, parent: Option<Ref>, names: seq<string>)
    requires ' ' !in name
    requires parent.Some? ==> Bare(RefName(parent.value))
    requires forall i :: 0 <= i < |names| ==> Bare(names[i])
    ensures Split(name + ExtendsClause(parent) + ListClause(" implements ", names), ' ')
            == [name] + (ExtendsWords(parent) + ListWords("implements", names))
  {
    match parent
    case None => ClassTailWithoutParent(name, names);
    case Some(p) => ClassTailWithParent(name, p, names);
  }

  lemma ClassTailWithoutParent(name: string, names: seq<string>)
    requires ' ' !in name
    requires forall i :: 0 <= i < |names| ==> Bare(names[i])
    ensures Split(name + ExtendsClause(None) + ListClause(" implements ", names), ' ')
            == [name] + (ExtendsWords(None) + ListWords("implements", names))
  {
    ImplementsWords(name, names);
    NoExtendsWords(name, ListClause(" implements ", names), ListWords("implements", names));
  }

  lemma ClassTailWithParent(name: string, parent: Ref, names: seq<string>)
    requires ' ' !in name
    requires Bare(RefName(parent))
    requires forall i :: 0 <= i < |names| ==> Bare(names[i])
    ensures Split(name + ExtendsClause(Some(parent)) + ListClause(" implements ", names), ' ')
            == [name] + (ExtendsWords(Some(parent)) + ListWords("implements", names))
  {
    var escaped := AddSlashes(RefName(parent));
    EscapeKeepsBare(RefName(parent));
    ImplementsWords(escaped, names);
    ExtendsWordsOf(name, escaped, ListClause(" implements ", names), ListWords("implements", names));
  }

  lemma NoExtendsWords(name: string, list: string, listWords: seq<string>)
    requires Split(name + list, ' ') == [name] + listWords
    ensures Split(name + "" + list, ' ') == [name] + ([] + listWords)
  {
    assert name + "" + list == name + list;
    assert [] + listWords == listWords;
  }

  lemma ExtendsWordsOf(name: string, escaped: string, list: string, listWords: seq<string>)
    requires ' ' !in name
    requires Split(escaped + list, ' ') == [escaped] + listWords
    ensures Split(name + (" extends " + escaped) + list, ' ') == [name] + (["extends", escaped] + listWords)
  {
    AppendAssociates(name, " extends " + escaped, list);
    AppendAssociates(" extends ", escaped, list);
    SpacedWords(name, " extends ", "extends", escaped + list);
    assert [name, "extends"] + ([escaped] + listWords) == [name] + (["extends", escaped] + listWords);
  }

  /** The words of a whole class header. */
  function ClassWords(c: ClassDescriptor): seq<string> {
    (if c.isAbstract then ["abstract"] else [])
    + (["class"] + ([AddSlashes(c.fqsen)] + (ExtendsWords(c.parent) + ListWords("implements", EscapedNames(c.interfaces)))))
  }

  /** The names a class descriptor's block is about. */
  predicate BareClass(c: ClassDescriptor) {
    Bare(c.fqsen) && (c.parent.Some? ==> Bare(RefName(c.parent.value))) && BareRefs(c.interfaces)
  }

  lemma ClassHeaderWords(c: ClassDescriptor)
    requires BareClass(c)
    ensures Split(ClassHeader(c), ' ') == ClassWords(c)
  {
    var name := AddSlashes(c.fqsen);
    var names := EscapedNames(c.interfaces);
    EscapeKeepsBare(c.fqsen);
    EscapedNamesBare(c.interfaces);
    ClassTailWords(name, c.parent, names);
    MarkedWords(if c.isAbstract then "abstract " else "", name, ExtendsClause(c.parent), ListClause(" implements ", names),
      [name] + (ExtendsWords(c.parent) + ListWords("implements", names)));
  }

  /** An optional "abstract " and the word "class" in front of the rest of a header. */
  lemma MarkedWords(marker: string, name: string, extendsClause: string, list: string, words: seq<string>)
    requires marker == "abstract " || marker == ""
    requires Split(name + extendsClause + list, ' ') == words
    ensures Split(marker + "class " + name + extendsClause + list, ' ')
            == (if marker == "abstract " then ["abstract"] else []) + (["class"] + words)
  {
    var tail := name + extendsClause + list;
    AppendAssociates(marker + "class ", name, extendsClause);
    AppendAssociates(marker + "class ", name + extendsClause, list);
    AppendAssociates(marker, "class ", tail);
    LeadingWord("class ", "class", tail);
    if marker == "abstract " {
      LeadingWord("abstract ", "abstract", "class " + tail);
    } else {
      assert marker + ("class " + tail) == "class " + tail;
    }
  }

  /** A word and a space in front of a string add that word in front of its words. */
  lemma LeadingWord(lead: string, word: string, rest: string)
    requires lead == word + [' '] && ' ' !in word
    ensures Split(lead + rest, ' ') == [word] + Split(rest, ' ')
  {
    SplitAt(word, rest, ' ');
  }

  // ----- reading a class header -----

  /** What a class header says: abstract or not, the class, its parent and its interfaces. */
  datatype ClassHead = ClassHead(isAbstract: bool, name: string, parent: Option<string>, interfaces: seq<string>)

  function ParentName(parent: Option<Ref>): Option<string> {
    match parent
    case None => None
    case Some(p) => Some(RefName(p))
  }

  /** Read an optional extends clause off the front of the words. */
  function ReadParent(words: seq<string>): (Option<string>, seq<string>) {
    if |words| >= 2 && words[0] == "extends" then (Some(StripSlashes(words[1])), words[2..])
    else (None, words)
  }

  /** Read a list clause: no words, or the keyword and the comma-joined names. */
  function ReadList(keyword: string, words: seq<string>): Option<seq<string>> {
    if words == [] then Some([])
    else if |words| == 2 && words[0] == keyword then Some(Unescaped(Split(words[1], ',')))
    else None
  }

  /** Read the words of a class header; None when they are not laid out as one. */
  function ReadClassWords(words: seq<string>): Option<ClassHead> {
    if |words| > 0 && words[0] == "abstract" then ReadClassBody(true, words[1..])
    else ReadClassBody(false, words)
  }

  /** The words from "class" on. */
  function ReadClassBody(isAbstract: bool, words: seq<string>): Option<ClassHead> {
    if |words| < 2 || words[0] != "class" then None
    else ReadClassTail(isAbstract, StripSlashes(words[1]), words[2..])
  }

  /** The words after the class name: an optional extends clause, then an optional implements list. */
  function ReadClassTail(isAbstract: bool, name: string, words: seq<string>): Option<ClassHead> {
    var (parent, list) := ReadParent(words);
    var interfaces := ReadList("implements", list);
    if interfaces.None? then None else Some(ClassHead(isAbstract, name, parent, interfaces.value))
  }

  function ReadClassHeader(header: string): Option<ClassHead> {
    ReadClassWords(Split(header, ' '))
  }

  lemma ReadListOf(keyword: string, refs: seq<Ref>)
    requires BareRefs(refs)
    ensures ReadList(keyword, ListWords(keyword, EscapedNames(refs))) == Some(RefNames(refs))
  {
    if refs == [] {
      assert RefNames(refs) == [];
    } else {
      ReadNameList(refs);
    }
  }

  lemma ReadParentOf(parent: Option<Ref>, list: seq<string>)
    requires list == [] || list[0] != "extends"
    ensures ReadParent(ExtendsWords(parent) + list) == (ParentName(parent), list)
  {
    if parent.Some? {
      StripAddSlashes(RefName(parent.value));
      assert (ExtendsWords(parent) + list)[2..] == list;
    } else {
      assert ExtendsWords(parent) + list == list;
    }
  }

  /**
   * A class header reads back as the class it was made from: "abstract "
   * exactly for an abstract class, an extends clause exactly when there is a
   * parent, an implements list exactly when there are interfaces, all
   * interfaces in order, and each name unescaped on its own.
   */
  lemma ReadClassHeaderRoundTrip(c: ClassDescriptor)
    requires BareClass(c)
    ensures ReadClassHeader(ClassHeader(c)) == Some(ClassHead(c.isAbstract, c.fqsen, ParentName(c.parent), RefNames(c.interfaces)))
  {
    var list := ListWords("implements", EscapedNames(c.interfaces));
    ClassHeaderWords(c);
    ReadListOf("implements", c.interfaces);
    ReadClassWordsOf(c.isAbstract, AddSlashes(c.fqsen), c.parent, list, RefNames(c.interfaces));
    StripAddSlashes(c.fqsen);
  }

  lemma ReadClassWordsOf(isAbstract: bool, name: string, parent: Option<Ref>, list: seq<string>, names: seq<string>)
    requires list == [] || list[0] != "extends"
    requires ReadList("implements", list) == Some(names)
    ensures ReadClassWords((if isAbstract then ["abstract"] else []) + (["class"] + ([name] + (ExtendsWords(parent) + list))))
            == Some(ClassHead(isAbstract, StripSlashes(name), ParentName(parent), names))
  {
    var tail := ExtendsWords(parent) + list;
    var body := ["class"] + ([name] + tail);
    ReadClassTailOf(isAbstract, StripSlashes(name), parent, list, names);
    ReadClassBodyOf(isAbstract, name, tail);
    ReadClassMarker(isAbstract, body);
  }

  lemma ReadClassTailOf(isAbstract: bool, name: string, parent: Option<Ref>, list: seq<string>, names: seq<string>)
    requires list == [] || list[0] != "extends"
    requires ReadList("implements", list) == Some(names)
    ensures ReadClassTail(isAbstract, name, ExtendsWords(parent) + list) == Some(ClassHead(isAbstract, name, ParentName(parent), names))
  {
    ReadParentOf(parent, list);
  }

  lemma ReadClassBodyOf(isAbstract: bool, name: string, tail: seq<string>)
    ensures ReadClassBody(isAbstract, ["class"] + ([name] + tail)) == ReadClassTail(isAbstract, StripSlashes(name), tail)
  {
    assert (["class"] + ([name] + tail))[2..] == tail;
  }

  lemma ReadClassMarker(isAbstract: bool, body: seq<string>)
    requires |body| > 0 && body[0] == "class"
    ensures ReadClassWords((if isAbstract then ["abstract"] else []) + body) == ReadClassBody(isAbstract, body)
  {
    if isAbstract {
      assert (["abstract"] + body)[1..] == body;
    } else {
      assert [] + body == body;
    }
  }

  // ----- reading an interface header -----

  /** What an interface header says: the interface and the interfaces it extends. */
  datatype InterfaceHead = InterfaceHead(name: string, parents: seq<string>)

  function ReadInterfaceWords(words: seq<string>): Option<InterfaceHead> {
    if |words| < 2 || words[0] != "interface" then None
    else
      var parents := ReadList("extends", words[2..]);
      if parents.None? then None else Some(InterfaceHead(StripSlashes(words[1]), parents.value))
  }

  function ReadInterfaceHeader(header: string): Option<InterfaceHead> {
    ReadInterfaceWords(Split(header, ' '))
  }

  predicate BareInterface(i: InterfaceDescriptor) {
    Bare(i.fqsen) && BareRefs(i.parents)
  }

  lemma InterfaceHeaderWords(i: InterfaceDescriptor)
    requires BareInterface(i)
    ensures Split(InterfaceHeader(i), ' ')
            == ["interface"] + ([AddSlashes(i.fqsen)] + ListWords("extends", EscapedNames(i.parents)))
  {
    var name := AddSlashes(i.fqsen);
    var names := EscapedNames(i.parents);
    EscapeKeepsBare(i.fqsen);
    EscapedNamesBare(i.parents);
    SpacedLiteral(" extends ", "extends");
    ListClauseWords(name, " extends ", "extends", names);
    LeadingWords("interface ", "interface", name, ListClause(" extends ", names));
  }

  /** A word and a space in front of a two-part rest. */
  lemma LeadingWords(lead: string, word: string, first: string, second: string)
    requires lead == word + [' '] && ' ' !in word
    ensures Split(lead + first + second, ' ') == [word] + Split(first + second, ' ')
  {
    assert lead + first + second == lead + (first + second);
    LeadingWord(lead, word, first + second);
  }

  /**
   * An interface header reads back as the interface it was made from: an
   * extends list exactly when it has parents, all parents in order, each
   * name unescaped on its own.
   */
  lemma ReadInterfaceHeaderRoundTrip(i: InterfaceDescriptor)
    requires BareInterface(i)
    ensures ReadInterfaceHeader(InterfaceHeader(i)) == Some(InterfaceHead(i.fqsen, RefNames(i.parents)))
  {
    var list := ListWords("extends", EscapedNames(i.parents));
    InterfaceHeaderWords(i);
    ReadListOf("extends", i.parents);
    StripAddSlashes(i.fqsen);
    assert (["interface"] + ([AddSlashes(i.fqsen)] + list))[2..] == list;
  }

  // ----- reading a trait header -----

  /** A trait header is "class ", the escaped trait and the trait stereotype; read the trait back. */
  function ReadTraitHeader(header: string): Option<string> {
    if |header| >= 6 + |TraitStereotype| && header[..6] == "class "
       && header[|header| - |TraitStereotype|..] == TraitStereotype
    then Some(StripSlashes(header[6..|header| - |TraitStereotype|]))
    else None
  }

  /** Every trait header carries the trait stereotype and reads back as its trait, whatever its name. */
  lemma ReadTraitHeaderRoundTrip(t: TraitDescriptor)
    ensures ReadTraitHeader(TraitHeader(t)) == Some(t.fqsen)
  {
    var name := AddSlashes(t.fqsen);
    var header := TraitHeader(t);
    assert |"class "| == 6;
    assert header[..6] == "class ";
    assert header[|header| - |TraitStereotype|..] == TraitStereotype;
    assert header[6..|header| - |TraitStereotype|] == name;
    StripAddSlashes(t.fqsen);
  }
}
