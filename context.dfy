/**
 * The converter from a parsed namespace node to a type-resolution Context:
 * the namespace name without its leading separator, and an alias table
 * that maps the short name a `use` statement introduces to the fully
 * qualified name it stands for. Only class-like imports (normal and
 * unknown kind) contribute; constant and function imports and every other
 * statement are passed over.
 */
module NamespaceNodeToContext {

  import opened Optional
  import Strings

  /** The namespace separator. */
  const Separator: char := '\\'

  /** The kind a use statement carries. */
  datatype UseKind = Unknown | Normal | Function | Constant

  /** One imported name with its optional alias. */
  datatype UseItem = UseItem(name: string, alias: Option<string>)

  /** A statement of a namespace body, as far as the converter looks at it. */
  datatype Stmt =
    | Use(kind: UseKind, items: seq<UseItem>)
    | GroupUse(kind: UseKind, prefix: string, items: seq<UseItem>)
    | OtherStmt

  /** A namespace node: an optional name and its statements in declaration order. */
  datatype NamespaceNode = NamespaceNode(name: Option<string>, stmts: seq<Stmt>)

  /** A namespace and its alias table. */
  datatype Context = Context(namespace: string, aliases: map<string, string>)

  /** A fully qualified name may be written with a leading separator; it is dropped. */
  function StripLeadingSeparator(s: string): (r: string)
    ensures r == s || [Separator] + r == s
    ensures r != [] && r[0] == Separator ==> r == s[1..]
  {
    if s != [] && s[0] == Separator then s[1..] else s
  }

  /** The path segment after the final separator, or the whole name when it has none. */
  function LastSegment(s: string): (r: string)
    ensures Separator !in r
    ensures |r| <= |s|
  {
    if s == [] then []
    else if s[|s| - 1] == Separator then []
    else LastSegment(s[..|s| - 1]) + [s[|s| - 1]]
  }

  /** Only class-like imports go into the alias table. */
  predicate Aliased(kind: UseKind) {
    kind == Normal || kind == Unknown
  }

  /**
   * The table entry of one imported name: under a group prefix the value
   * is the prefix, a separator and the name; the key is the alias when one
   * is given, otherwise the last segment of the imported name.
   */
  function ItemEntry(prefix: Option<string>, item: UseItem): (string, string) {
    var name := StripLeadingSeparator(item.name);
    var value := match prefix
      case None => name
      case Some(p) => StripLeadingSeparator(p) + [Separator] + name;
    var key := match item.alias
      case None => LastSegment(name)
      case Some(a) => a;
    (key, value)
  }

  function ItemEntries(prefix: Option<string>, items: seq<UseItem>): seq<(string, string)> {
    seq(|items|, i requires 0 <= i < |items| => ItemEntry(prefix, items[i]))
  }

  /** Whether a statement adds to the alias table. */
  predicate Contributes(stmt: Stmt) {
    match stmt
    case Use(kind, _) => Aliased(kind)
    case GroupUse(kind, _, _) => Aliased(kind)
    case OtherStmt => false
  }

  function StmtEntries(stmt: Stmt): seq<(string, string)> {
    if !Contributes(stmt) then []
    else match stmt
      case Use(_, items) => ItemEntries(None, items)
      case GroupUse(_, prefix, items) => ItemEntries(Some(prefix), items)
  }

  /** The table entries of a statement list, in declaration order. */
  function Entries(stmts: seq<Stmt>): seq<(string, string)> {
    if stmts == [] then []
    else Entries(stmts[..|stmts| - 1]) + StmtEntries(stmts[|stmts| - 1])
  }

  /** Insert the entries in order: a later entry overwrites an earlier one under the same key. */
  function Insert(m: map<string, string>, entries: seq<(string, string)>): (r: map<string, string>)
    ensures r.Keys == m.Keys + set i | 0 <= i < |entries| :: entries[i].0
  {
    if entries == [] then m
    else
      var init := entries[..|entries| - 1];
      var last := entries[|entries| - 1];
      var r := Insert(m, init)[last.0 := last.1];
      assert (set i | 0 <= i < |entries| :: entries[i].0) == (set i | 0 <= i < |init| :: init[i].0) + {last.0} by {
        forall i | 0 <= i < |init| ensures init[i] == entries[i] { }
      }
      r
  }

  /** The table of a list of entries, starting from an empty one. */
  function MapOf(entries: seq<(string, string)>): (m: map<string, string>)
    ensures m.Keys == set i | 0 <= i < |entries| :: entries[i].0
  {
    Insert(map[], entries)
  }

  /** The converter: no node or an unnamed node gives the empty Context. */
  function Convert(node: Option<NamespaceNode>): (context: Context)
    ensures node.None? || node.value.name.None? ==> context == Context("", map[])
    ensures node.Some? && node.value.name.Some? ==>
      context.namespace == StripLeadingSeparator(node.value.name.value)
  {
    match node
    case None => Context("", map[])
    case Some(n) =>
      match n.name
      case None => Context("", map[])
      case Some(name) => Context(StripLeadingSeparator(name), MapOf(Entries(n.stmts)))
  }

  // ----- properties -----

  /**
   * The key is the alias when one is given and otherwise holds no
   * separator; the value is the name without its leading separator, and
   * under a group prefix it is that prefix joined to the name.
   */
  lemma ItemEntryShape(prefix: Option<string>, item: UseItem)
    ensures item.alias.Some? ==> ItemEntry(prefix, item).0 == item.alias.value
    ensures item.alias.None? ==> Separator !in ItemEntry(prefix, item).0
    ensures prefix.None? ==> ItemEntry(prefix, item).1 == StripLeadingSeparator(item.name)
    ensures prefix.Some? ==> Separator in ItemEntry(prefix, item).1
  {
    if prefix.Some? {
      var p := StripLeadingSeparator(prefix.value);
      assert (p + [Separator] + StripLeadingSeparator(item.name))[|p|] == Separator;
    }
  }

  /** Constant and function imports and other statements add nothing; a class-like import adds one entry per name. */
  lemma StmtEntriesFilter(stmt: Stmt)
    ensures stmt.OtherStmt? || stmt.kind == Function || stmt.kind == Constant ==> StmtEntries(stmt) == []
    ensures Contributes(stmt) ==> |StmtEntries(stmt)| == |stmt.items|
  {
  }

  /** A statement list without a class-like import adds nothing to the table. */
  lemma {:induction false} EntriesWithoutImports(stmts: seq<Stmt>)
    requires forall k :: 0 <= k < |stmts| ==> !Contributes(stmts[k])
    ensures Entries(stmts) == []
  {
    if stmts != [] {
      EntriesWithoutImports(stmts[..|stmts| - 1]);
    }
  }

  /** A name written with one leading separator resolves as the same name written without it. */
  lemma StripLeadingSeparatorOnce(s: string)
    requires s == [] || s[0] != Separator
    ensures StripLeadingSeparator([Separator] + s) == s
    ensures StripLeadingSeparator(s) == s
  {
    assert ([Separator] + s)[1..] == s;
  }

  /** An import gives the same entry whether or not its name carries a leading separator. */
  lemma ItemEntryLeadingSeparator(prefix: Option<string>, name: string, alias: Option<string>)
    requires name == [] || name[0] != Separator
    ensures ItemEntry(prefix, UseItem([Separator] + name, alias)) == ItemEntry(prefix, UseItem(name, alias))
  {
    StripLeadingSeparatorOnce(name);
  }

  /** The namespace name too is the same with or without a leading separator. */
  lemma ConvertLeadingSeparator(name: string, stmts: seq<Stmt>)
    requires name == [] || name[0] != Separator
    ensures Convert(Some(NamespaceNode(Some([Separator] + name), stmts))) == Convert(Some(NamespaceNode(Some(name), stmts)))
    ensures Convert(Some(NamespaceNode(Some(name), stmts))).namespace == name
  {
    StripLeadingSeparatorOnce(name);
  }

  /** A name without a separator is a single segment: unaliased, it is its own key. */
  lemma {:induction false} LastSegmentOfSimpleName(s: string)
    requires Separator !in s
    ensures LastSegment(s) == s
  {
    if s != [] {
      LastSegmentOfSimpleName(s[..|s| - 1]);
      assert s[..|s| - 1] + [s[|s| - 1]] == s;
    }
  }

  /**
   * The last segment is the end of the name, and it is either the whole
   * name or it starts right after a separator.
   */
  lemma {:induction false} LastSegmentIsSuffix(s: string)
    ensures s[|s| - |LastSegment(s)|..] == LastSegment(s)
    ensures |LastSegment(s)| < |s| ==> s[|s| - |LastSegment(s)| - 1] == Separator
  {
    if s != [] && s[|s| - 1] != Separator {
      var init := s[..|s| - 1];
      LastSegmentIsSuffix(init);
      assert s[|s| - |LastSegment(s)|..] == init[|init| - |LastSegment(init)|..] + [s[|s| - 1]];
    }
  }

  /** Whatever comes before the final separator does not change the last segment. */
  lemma {:induction false} LastSegmentAfterSeparator(path: string, s: string)
    ensures LastSegment(path + [Separator] + s) == LastSegment(s)
  {
    var full := path + [Separator] + s;
    if s == [] {
      assert full[|full| - 1] == Separator;
    } else {
      var init := s[..|s| - 1];
      LastSegmentAfterSeparator(path, init);
      assert full[..|full| - 1] == path + [Separator] + init;
      assert full[|full| - 1] == s[|s| - 1];
    }
  }

  /** The entries of two statement lists one after the other. */
  lemma {:induction false} EntriesAppend(a: seq<Stmt>, b: seq<Stmt>)
    ensures Entries(a + b) == Entries(a) + Entries(b)
    decreases |b|
  {
    if b == [] {
      assert a + b == a;
    } else {
      EntriesAppend(a, b[..|b| - 1]);
      assert (a + b)[..|a + b| - 1] == a + b[..|b| - 1];
      assert (a + b)[|a + b| - 1] == b[|b| - 1];
      Strings.AppendAssociates(Entries(a), Entries(b[..|b| - 1]), StmtEntries(b[|b| - 1]));
    }
  }

  /** The statements that add to the alias table, in declaration order. */
  function Imports(stmts: seq<Stmt>): (imports: seq<Stmt>)
    ensures forall i :: 0 <= i < |imports| ==> Contributes(imports[i])
    ensures |imports| <= |stmts|
  {
    if stmts == [] then []
    else
      var init := Imports(stmts[..|stmts| - 1]);
      if Contributes(stmts[|stmts| - 1]) then init + [stmts[|stmts| - 1]] else init
  }

  /** Dropping constant and function imports and every non-import statement leaves the entries as they were. */
  lemma {:induction false} EntriesOfImports(stmts: seq<Stmt>)
    ensures Entries(Imports(stmts)) == Entries(stmts)
  {
    if stmts != [] {
      var init := stmts[..|stmts| - 1];
      var last := stmts[|stmts| - 1];
      EntriesOfImports(init);
      if Contributes(last) {
        EntriesAppend(Imports(init), [last]);
        assert Entries([last]) == StmtEntries(last) by {
          assert [last][..0] == [];
        }
      }
    }
  }

  /** The Context of a namespace depends only on its class-like imports. */
  lemma ConvertSeesOnlyImports(name: Option<string>, stmts: seq<Stmt>)
    ensures Convert(Some(NamespaceNode(name, stmts))) == Convert(Some(NamespaceNode(name, Imports(stmts))))
  {
    EntriesOfImports(stmts);
  }

  /**
   * Last write wins: an entry that no later entry shadows is in the table
   * with its own value.
   */
  lemma MapOfLastWins(entries: seq<(string, string)>, i: nat)
    requires i < |entries|
    requires forall j :: i < j < |entries| ==> entries[j].0 != entries[i].0
    ensures entries[i].0 in MapOf(entries) && MapOf(entries)[entries[i].0] == entries[i].1
  {
    InsertLastWins(map[], entries, i);
  }

  lemma {:induction false} InsertLastWins(m: map<string, string>, entries: seq<(string, string)>, i: nat)
    requires i < |entries|
    requires forall j :: i < j < |entries| ==> entries[j].0 != entries[i].0
    ensures entries[i].0 in Insert(m, entries) && Insert(m, entries)[entries[i].0] == entries[i].1
    decreases |entries|
  {
    if i < |entries| - 1 {
      var init := entries[..|entries| - 1];
      assert init[i] == entries[i];
      InsertLastWins(m, init, i);
    }
  }

  /** A key no entry mentions keeps what the table had. */
  lemma {:induction false} InsertKeeps(m: map<string, string>, entries: seq<(string, string)>, k: string)
    requires k in m
    requires forall j :: 0 <= j < |entries| ==> entries[j].0 != k
    ensures Insert(m, entries)[k] == m[k]
    decreases |entries|
  {
    if entries != [] {
      InsertKeeps(m, entries[..|entries| - 1], k);
    }
  }

  /** Inserting two lists is inserting their concatenation. */
  lemma {:induction false} InsertAppend(m: map<string, string>, a: seq<(string, string)>, b: seq<(string, string)>)
    ensures Insert(m, a + b) == Insert(Insert(m, a), b)
    decreases |b|
  {
    if b == [] {
      assert a + b == a;
    } else {
      InsertAppend(m, a, b[..|b| - 1]);
      assert (a + b)[..|a + b| - 1] == a + b[..|b| - 1];
    }
  }

  // ----- the converter's test cases -----

  /** No node, and a node without a name, give the empty Context. */
  lemma AbsentNamespaces()
    ensures Convert(None) == Context("", map[])
    ensures Convert(Some(NamespaceNode(None, []))) == Context("", map[])
  {
  }

  /** A namespace name is kept, and its leading separator dropped. */
  lemma NamedNamespaces()
    ensures Convert(Some(NamespaceNode(Some("Foo\\Bar"), []))) == Context("Foo\\Bar", map[])
    ensures Convert(Some(NamespaceNode(Some("\\Foo\\Bar"), []))) == Context("Foo\\Bar", map[])
  {
    StripLeadingSeparatorOnce("Foo\\Bar");
  }

  /** A plain import of a normal kind. */
  function Import(name: string): Stmt {
    Use(Normal, [UseItem(name, None)])
  }

  /** A namespace with every kind of import and one class declaration. */
  const WithImports: NamespaceNode := NamespaceNode(Some("With\\Imports"), [
    Import("ClassName"),
    Use(Constant, [UseItem("ConstantName", None)]),
    Use(Function, [UseItem("FunctionName", None)]),
    Use(Unknown, [UseItem("UnknownName", None)]),
    Import("AAA\\BBB"),
    Import("BBB\\CCC\\DDD"),
    Import("Foo\\EEE\\FFF"),
    Import("Foo"),
    Use(Normal, [UseItem("GGG", Some("HHH"))]),
    Use(Normal, [UseItem("III", Some("JJJ"))]),
    GroupUse(Normal, "LLL", [UseItem("MMM", None), UseItem("NNN", Some("OOO"))]),
    Import("\\PPP"),
    OtherStmt
  ])

  const WithImportsAliases: map<string, string> := map[
    "ClassName" := "ClassName",
    "UnknownName" := "UnknownName",
    "BBB" := "AAA\\BBB",
    "DDD" := "BBB\\CCC\\DDD",
    "FFF" := "Foo\\EEE\\FFF",
    "Foo" := "Foo",
    "HHH" := "GGG",
    "JJJ" := "III",
    "MMM" := "LLL\\MMM",
    "OOO" := "LLL\\NNN",
    "PPP" := "PPP"
  ]

  /**
   * The complex use statement: the constant and function imports and the
   * class declaration add nothing, unaliased names are keyed by their last
   * segment, aliases win, group entries join prefix and name.
   */
  lemma ComplexUseStatement()
    ensures Convert(Some(WithImports)) == Context("With\\Imports", WithImportsAliases)
  {
    StripLeadingSeparatorOnce("With\\Imports");
    WithImportsTable();
  }

  /** The table of a prefix of a statement list, one statement longer. */
  lemma TableStep(stmts: seq<Stmt>, k: nat, m: map<string, string>, added: seq<(string, string)>)
    requires k < |stmts|
    requires MapOf(Entries(stmts[..k])) == m && StmtEntries(stmts[k]) == added
    ensures MapOf(Entries(stmts[..k + 1])) == Insert(m, added)
  {
    assert stmts[..k + 1][..k] == stmts[..k];
    InsertAppend(map[], Entries(stmts[..k]), added);
  }

  lemma InsertOne(m: map<string, string>, key: string, value: string)
    ensures Insert(m, [(key, value)]) == m[key := value]
  {
    assert [(key, value)][..0] == [];
  }

  lemma InsertTwo(m: map<string, string>, key1: string, value1: string, key2: string, value2: string)
    ensures Insert(m, [(key1, value1), (key2, value2)]) == m[key1 := value1][key2 := value2]
  {
    assert [(key1, value1), (key2, value2)][..1] == [(key1, value1)];
    InsertOne(m, key1, value1);
  }

  lemma SingleUse(kind: UseKind, item: UseItem)
    requires Aliased(kind)
    ensures StmtEntries(Use(kind, [item])) == [ItemEntry(None, item)]
  {
  }

  /** An unaliased single-segment import is keyed by itself. */
  lemma SimpleImport(kind: UseKind, name: string)
    requires Aliased(kind) && name != [] && Separator !in name
    ensures StmtEntries(Use(kind, [UseItem(name, None)])) == [(name, name)]
  {
    SingleUse(kind, UseItem(name, None));
    LastSegmentOfSimpleName(name);
  }

  /** An unaliased import of a qualified name is keyed by its last segment. */
  lemma QualifiedImport(name: string, path: string, last: string)
    requires name == path + [Separator] + last && path != [] && path[0] != Separator && Separator !in last
    ensures StmtEntries(Import(name)) == [(last, name)]
  {
    SingleUse(Normal, UseItem(name, None));
    LastSegmentAfterSeparator(path, last);
    LastSegmentOfSimpleName(last);
  }

  lemma AliasedImport(name: string, alias: string)
    requires name != [] && name[0] != Separator
    ensures StmtEntries(Use(Normal, [UseItem(name, Some(alias))])) == [(alias, name)]
  {
    SingleUse(Normal, UseItem(name, Some(alias)));
  }

  /** A group import of an unaliased single-segment name and an aliased one. */
  lemma GroupImport(prefix: string, name: string, other: string, alias: string)
    requires prefix != [] && prefix[0] != Separator
    requires name != [] && Separator !in name && other != [] && other[0] != Separator
    ensures StmtEntries(GroupUse(Normal, prefix, [UseItem(name, None), UseItem(other, Some(alias))]))
            == [(name, prefix + [Separator] + name), (alias, prefix + [Separator] + other)]
  {
    StripLeadingSeparatorOnce(prefix);
    StripLeadingSeparatorOnce(name);
    StripLeadingSeparatorOnce(other);
    LastSegmentOfSimpleName(name);
  }

  /** A leading separator on an unaliased single-segment import goes from both key and value. */
  lemma LeadingSeparatorImport(name: string)
    requires name != [] && Separator !in name
    ensures StmtEntries(Import([Separator] + name)) == [(name, name)]
  {
    SingleUse(Normal, UseItem([Separator] + name, None));
    StripLeadingSeparatorOnce(name);
    LastSegmentOfSimpleName(name);
  }

  /** What the plain, constant, function and unknown-kind imports of WithImports add. */
  lemma WithImportsStatements4()
    ensures StmtEntries(WithImports.stmts[0]) == [("ClassName", "ClassName")]
    ensures StmtEntries(WithImports.stmts[1]) == []
    ensures StmtEntries(WithImports.stmts[2]) == []
    ensures StmtEntries(WithImports.stmts[3]) == [("UnknownName", "UnknownName")]
  {
    PlainImport();
    UnknownKindImport();
  }

  lemma PlainImport()
    ensures StmtEntries(WithImports.stmts[0]) == [("ClassName", "ClassName")]
  {
    SimpleImport(Normal, "ClassName");
  }

  lemma UnknownKindImport()
    ensures StmtEntries(WithImports.stmts[3]) == [("UnknownName", "UnknownName")]
  {
    SimpleImport(Unknown, "UnknownName");
  }

  /** What the qualified imports of WithImports add, each keyed by its last segment. */
  lemma WithImportsStatements7()
    ensures StmtEntries(WithImports.stmts[4]) == [("BBB", "AAA\\BBB")]
    ensures StmtEntries(WithImports.stmts[5]) == [("DDD", "BBB\\CCC\\DDD")]
    ensures StmtEntries(WithImports.stmts[6]) == [("FFF", "Foo\\EEE\\FFF")]
  {
    QualifiedImportOne();
    QualifiedImportTwo();
    QualifiedImportThree();
  }

  lemma QualifiedImportOne()
    ensures StmtEntries(WithImports.stmts[4]) == [("BBB", "AAA\\BBB")]
  {
    QualifiedImport("AAA\\BBB", "AAA", "BBB");
  }

  lemma QualifiedImportTwo()
    ensures StmtEntries(WithImports.stmts[5]) == [("DDD", "BBB\\CCC\\DDD")]
  {
    QualifiedImport("BBB\\CCC\\DDD", "BBB\\CCC", "DDD");
  }

  lemma QualifiedImportThree()
    ensures StmtEntries(WithImports.stmts[6]) == [("FFF", "Foo\\EEE\\FFF")]
  {
    QualifiedImport("Foo\\EEE\\FFF", "Foo\\EEE", "FFF");
  }

  /** What the single-segment import and the two aliased ones of WithImports add. */
  lemma WithImportsStatements10()
    ensures StmtEntries(WithImports.stmts[7]) == [("Foo", "Foo")]
    ensures StmtEntries(WithImports.stmts[8]) == [("HHH", "GGG")]
    ensures StmtEntries(WithImports.stmts[9]) == [("JJJ", "III")]
  {
    SimpleImport(Normal, "Foo");
    AliasedImport("GGG", "HHH");
    AliasedImport("III", "JJJ");
  }

  /** What the group import, the import with a leading separator and the class declaration of WithImports add. */
  lemma WithImportsStatements13()
    ensures StmtEntries(WithImports.stmts[10]) == [("MMM", "LLL\\MMM"), ("OOO", "LLL\\NNN")]
    ensures StmtEntries(WithImports.stmts[11]) == [("PPP", "PPP")]
    ensures StmtEntries(WithImports.stmts[12]) == []
  {
    GroupImportOf();
    LeadingSeparatorImport("PPP");
  }

  lemma GroupImportOf()
    ensures StmtEntries(WithImports.stmts[10]) == [("MMM", "LLL\\MMM"), ("OOO", "LLL\\NNN")]
  {
    GroupImport("LLL", "MMM", "NNN", "OOO");
    assert "LLL" + [Separator] + "MMM" == "LLL\\MMM";
    assert "LLL" + [Separator] + "NNN" == "LLL\\NNN";
  }

  /** A statement that adds one entry. */
  lemma TableOne(stmts: seq<Stmt>, k: nat, m: map<string, string>, key: string, value: string)
    requires k < |stmts|
    requires MapOf(Entries(stmts[..k])) == m && StmtEntries(stmts[k]) == [(key, value)]
    ensures MapOf(Entries(stmts[..k + 1])) == m[key := value]
  {
    TableStep(stmts, k, m, [(key, value)]);
    InsertOne(m, key, value);
  }

  /** A statement that adds nothing. */
  lemma TableNone(stmts: seq<Stmt>, k: nat, m: map<string, string>)
    requires k < |stmts|
    requires MapOf(Entries(stmts[..k])) == m && StmtEntries(stmts[k]) == []
    ensures MapOf(Entries(stmts[..k + 1])) == m
  {
    TableStep(stmts, k, m, []);
  }

  /** The table after the plain, constant, function and unknown-kind imports, for any list whose statements add what those of WithImports add. */
  lemma WithImportsTable4(st: seq<Stmt>)
    requires |st| == 13 && MapOf(Entries(st[..0])) == map[]
    requires StmtEntries(st[0]) == [("ClassName", "ClassName")]
    requires StmtEntries(st[1]) == []
    requires StmtEntries(st[2]) == []
    requires StmtEntries(st[3]) == [("UnknownName", "UnknownName")]
    ensures MapOf(Entries(st[..4])) == map["ClassName" := "ClassName", "UnknownName" := "UnknownName"]
  {
    var m: map<string, string> := map[];
    TableOne(st, 0, m, "ClassName", "ClassName");
    m := m["ClassName" := "ClassName"];
    TableNone(st, 1, m);
    TableNone(st, 2, m);
    TableOne(st, 3, m, "UnknownName", "UnknownName");
  }

  /** The table after the qualified imports, keyed by their last segment, for any list whose statements add what those of WithImports add. */
  lemma WithImportsTable7(st: seq<Stmt>)
    requires |st| == 13 && MapOf(Entries(st[..4])) == map["ClassName" := "ClassName", "UnknownName" := "UnknownName"]
    requires StmtEntries(st[4]) == [("BBB", "AAA\\BBB")]
    requires StmtEntries(st[5]) == [("DDD", "BBB\\CCC\\DDD")]
    requires StmtEntries(st[6]) == [("FFF", "Foo\\EEE\\FFF")]
    ensures MapOf(Entries(st[..7])) == map["ClassName" := "ClassName", "UnknownName" := "UnknownName", "BBB" := "AAA\\BBB", "DDD" := "BBB\\CCC\\DDD", "FFF" := "Foo\\EEE\\FFF"]
  {
    var m: map<string, string> := map["ClassName" := "ClassName", "UnknownName" := "UnknownName"];
    TableOne(st, 4, m, "BBB", "AAA\\BBB");
    m := m["BBB" := "AAA\\BBB"];
    TableOne(st, 5, m, "DDD", "BBB\\CCC\\DDD");
    m := m["DDD" := "BBB\\CCC\\DDD"];
    TableOne(st, 6, m, "FFF", "Foo\\EEE\\FFF");
  }

  /** The table after the single-segment import and the two aliased ones, for any list whose statements add what those of WithImports add. */
  lemma WithImportsTable10(st: seq<Stmt>)
    requires |st| == 13 && MapOf(Entries(st[..7])) == map["ClassName" := "ClassName", "UnknownName" := "UnknownName", "BBB" := "AAA\\BBB", "DDD" := "BBB\\CCC\\DDD", "FFF" := "Foo\\EEE\\FFF"]
    requires StmtEntries(st[7]) == [("Foo", "Foo")]
    requires StmtEntries(st[8]) == [("HHH", "GGG")]
    requires StmtEntries(st[9]) == [("JJJ", "III")]
    ensures MapOf(Entries(st[..10])) == map["ClassName" := "ClassName", "UnknownName" := "UnknownName", "BBB" := "AAA\\BBB", "DDD" := "BBB\\CCC\\DDD", "FFF" := "Foo\\EEE\\FFF", "Foo" := "Foo", "HHH" := "GGG", "JJJ" := "III"]
  {
    var m: map<string, string> := map["ClassName" := "ClassName", "UnknownName" := "UnknownName", "BBB" := "AAA\\BBB", "DDD" := "BBB\\CCC\\DDD", "FFF" := "Foo\\EEE\\FFF"];
    TableOne(st, 7, m, "Foo", "Foo");
    m := m["Foo" := "Foo"];
    TableOne(st, 8, m, "HHH", "GGG");
    m := m["HHH" := "GGG"];
    TableOne(st, 9, m, "JJJ", "III");
  }

  /** The table after the group import, the import with a leading separator and the class declaration, for any list whose statements add what those of WithImports add. */
  lemma WithImportsTable13(st: seq<Stmt>)
    requires |st| == 13 && MapOf(Entries(st[..10])) == map["ClassName" := "ClassName", "UnknownName" := "UnknownName", "BBB" := "AAA\\BBB", "DDD" := "BBB\\CCC\\DDD", "FFF" := "Foo\\EEE\\FFF", "Foo" := "Foo", "HHH" := "GGG", "JJJ" := "III"]
    requires StmtEntries(st[10]) == [("MMM", "LLL\\MMM"), ("OOO", "LLL\\NNN")]
    requires StmtEntries(st[11]) == [("PPP", "PPP")]
    requires StmtEntries(st[12]) == []
    ensures MapOf(Entries(st[..13])) == map["ClassName" := "ClassName", "UnknownName" := "UnknownName", "BBB" := "AAA\\BBB", "DDD" := "BBB\\CCC\\DDD", "FFF" := "Foo\\EEE\\FFF", "Foo" := "Foo", "HHH" := "GGG", "JJJ" := "III", "MMM" := "LLL\\MMM", "OOO" := "LLL\\NNN", "PPP" := "PPP"]
  {
    var m: map<string, string> := map["ClassName" := "ClassName", "UnknownName" := "UnknownName", "BBB" := "AAA\\BBB", "DDD" := "BBB\\CCC\\DDD", "FFF" := "Foo\\EEE\\FFF", "Foo" := "Foo", "HHH" := "GGG", "JJJ" := "III"];
    TableStep(st, 10, m, [("MMM", "LLL\\MMM"), ("OOO", "LLL\\NNN")]);
    InsertTwo(m, "MMM", "LLL\\MMM", "OOO", "LLL\\NNN");
    m := m["MMM" := "LLL\\MMM"]["OOO" := "LLL\\NNN"];
    TableOne(st, 11, m, "PPP", "PPP");
    m := m["PPP" := "PPP"];
    TableNone(st, 12, m);
  }

  lemma WithImportsPrefix4()
    ensures MapOf(Entries(WithImports.stmts[..4])) == map["ClassName" := "ClassName", "UnknownName" := "UnknownName"]
  {
    assert WithImports.stmts[..0] == [];
    WithImportsStatements4();
    WithImportsTable4(WithImports.stmts);
  }

  lemma WithImportsPrefix7()
    ensures MapOf(Entries(WithImports.stmts[..7])) == map["ClassName" := "ClassName", "UnknownName" := "UnknownName", "BBB" := "AAA\\BBB", "DDD" := "BBB\\CCC\\DDD", "FFF" := "Foo\\EEE\\FFF"]
  {
    WithImportsPrefix4();
    WithImportsStatements7();
    WithImportsTable7(WithImports.stmts);
  }

  lemma WithImportsPrefix10()
    ensures MapOf(Entries(WithImports.stmts[..10])) == map["ClassName" := "ClassName", "UnknownName" := "UnknownName", "BBB" := "AAA\\BBB", "DDD" := "BBB\\CCC\\DDD", "FFF" := "Foo\\EEE\\FFF", "Foo" := "Foo", "HHH" := "GGG", "JJJ" := "III"]
  {
    WithImportsPrefix7();
    WithImportsStatements10();
    WithImportsTable10(WithImports.stmts);
  }

  lemma WithImportsPrefix13()
    ensures MapOf(Entries(WithImports.stmts[..13])) == map["ClassName" := "ClassName", "UnknownName" := "UnknownName", "BBB" := "AAA\\BBB", "DDD" := "BBB\\CCC\\DDD", "FFF" := "Foo\\EEE\\FFF", "Foo" := "Foo", "HHH" := "GGG", "JJJ" := "III", "MMM" := "LLL\\MMM", "OOO" := "LLL\\NNN", "PPP" := "PPP"]
  {
    WithImportsPrefix10();
    WithImportsStatements13();
    WithImportsTable13(WithImports.stmts);
  }

  /** Statement by statement, the table of WithImports grows into the expected one. */
  lemma WithImportsTable()
    ensures MapOf(Entries(WithImports.stmts)) == WithImportsAliases
  {
    WithImportsPrefix13();
    assert WithImports.stmts[..13] == WithImports.stmts;
  }
}
