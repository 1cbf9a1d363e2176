# phpDocumentor class diagrams, import contexts and namespace registries

This project models three related pieces of phpDocumentor and proves properties of them.

1. **The PlantUML class-diagram writer.** `PlantumlClassDiagram::renderNamespace` walks a namespace descriptor tree and builds the markup string. For each class it writes:
   - one "uses" edge per used trait;
   - then a block with an optional `abstract `, an optional `extends` clause and an optional comma-joined `implements` list.

   Next come interface blocks, each with a comma-joined `extends` list. Then trait blocks, which carry the trait stereotype and are preceded by their own "uses" edges. Then the markup of every child namespace, depth first. Every name goes through `addslashes` on its own.

   `create` does three things:
   - it skips any documentation set that is not an API set;
   - it puts the layout header in front of the markup and hands the document to the rendering backend;
   - it logs an error when the backend's result is falsy, and otherwise writes that result to the file.

   Module `PlantumlClassDiagram` (plantuml.dfy) holds the writer:
   - the markup as specification functions;
   - the loops of `renderNamespace` as methods proved against them;
   - `create` as a method returning its observable outcome.

   The remaining modules state properties of the markup:
   - `DiagramProperties` (plantuml_props.dfy): when the markup is empty, and its order;
   - `DiagramReading` (plantuml_reading.dfy): every block header parses back into the descriptor it came from;
   - `DiagramLines` (plantuml_lines.dfy): the line structure of each class, interface and trait.

   The descriptor tree is in `Descriptors` (descriptors.dfy). `addslashes`, `stripslashes`, `implode` and its inverse are in `Strings` (strings.dfy).
2. **The namespace-node to Context converter.** It turns a parsed namespace node into a `Context`: the namespace name without its leading backslash, and an alias table from the short names the `use` statements introduce to the fully qualified names they stand for.
   - Only normal and unknown-kind imports contribute.
   - An unaliased import is keyed by its last segment.
   - An alias overrides that key.
   - A group import joins prefix and subname.
   - A leading backslash is dropped from names.

   The converter's own source is not part of this model. Its behaviour is taken from its test, `NamespaceNodeToContextTest.php`, whose cases are proved here as lemmas. Module `NamespaceNodeToContext` (context.dfy).
3. **The `Namespace_` element registry.** A namespace element keeps the fully qualified name it was created with, and one registry each for classes, constants, functions, interfaces and traits. `add*` stores an Fqsen under its string form, and the getters return the registries. Only its test, `Namespace_Test.php`, is part of this model. Module `Php` (registry.dfy) models it as a class with one map field per registry. The test cases are methods on a fresh object.

## Model

| member | source | states |
|---|---|---|
| Strings.StripAddSlashes | vendor/phpdocumentor/phpdocumentor/src/phpDocumentor/Transformer/Writer/Graph/PlantumlClassDiagram.php:83 | stripslashes undoes addslashes, so every escaped name can be read back |
| Strings.AddSlashesInjective | vendor/phpdocumentor/phpdocumentor/src/phpDocumentor/Transformer/Writer/Graph/PlantumlClassDiagram.php:83 | two different names never escape to the same text |
| Strings.AddSlashesIdentity | vendor/phpdocumentor/phpdocumentor/src/phpDocumentor/Transformer/Writer/Graph/PlantumlClassDiagram.php:83 | a name without quote, double quote, backslash or NUL is left unchanged by addslashes |
| Strings.AddSlashesKeeps | vendor/phpdocumentor/phpdocumentor/src/phpDocumentor/Transformer/Writer/Graph/PlantumlClassDiagram.php:100 | addslashes adds no character other than backslash and 0, and drops none |
| Strings.SplitJoin | vendor/phpdocumentor/phpdocumentor/src/phpDocumentor/Transformer/Writer/Graph/PlantumlClassDiagram.php:104 | cutting a comma-joined list of comma-free names at the commas gives back the names in order |
| Strings.JoinAppend | vendor/phpdocumentor/phpdocumentor/src/phpDocumentor/Transformer/Writer/Graph/PlantumlClassDiagram.php:104 | implode of two lists is the two implodes glued with the separator |
| Strings.AddSlashes | vendor/phpdocumentor/phpdocumentor/src/phpDocumentor/Transformer/Writer/Graph/PlantumlClassDiagram.php:83 | PHP addslashes: each quote, double quote and backslash gets a backslash in front, and NUL becomes a backslash and 0 |
| Strings.AddSlashesLength | vendor/phpdocumentor/phpdocumentor/src/phpDocumentor/Transformer/Writer/Graph/PlantumlClassDiagram.php:83 | an escaped name is at least as long as the name and at most twice as long |
| Strings.StripSlashes | vendor/phpdocumentor/phpdocumentor/src/phpDocumentor/Transformer/Writer/Graph/PlantumlClassDiagram.php:83 | PHP stripslashes, the inverse of addslashes: each backslash is dropped and the next character kept, and a backslash with 0 becomes NUL |
| Strings.Join | vendor/phpdocumentor/phpdocumentor/src/phpDocumentor/Transformer/Writer/Graph/PlantumlClassDiagram.php:104 | PHP implode with a one-character glue: the glue appears whenever there are two or more parts, and the result is at least one character per gap |
| Strings.Split | vendor/phpdocumentor/phpdocumentor/src/phpDocumentor/Transformer/Writer/Graph/PlantumlClassDiagram.php:104 | the inverse of implode: the string cut at every separator, at least one piece |
| Strings.SplitPieces | vendor/phpdocumentor/phpdocumentor/src/phpDocumentor/Transformer/Writer/Graph/PlantumlClassDiagram.php:104 | no piece of a cut string holds the separator |
| PlantumlClassDiagram.EscapedNames | vendor/phpdocumentor/phpdocumentor/src/phpDocumentor/Transformer/Writer/Graph/PlantumlClassDiagram.php:94-101 | the implements and extends lists hold, entry by entry and in order, the escaped name of each reference (descriptor FQSEN or string form) |
| PlantumlClassDiagram.UsesLine | vendor/phpdocumentor/phpdocumentor/src/phpDocumentor/Transformer/Writer/Graph/PlantumlClassDiagram.php:114 | one edge: the escaped trait name, ` <-- `, the escaped owner and ` : uses` |
| PlantumlClassDiagram.UsesEdges | vendor/phpdocumentor/phpdocumentor/src/phpDocumentor/Transformer/Writer/Graph/PlantumlClassDiagram.php:109-115 | one edge line plus end of line per used trait, in order; empty exactly when there are no used traits |
| PlantumlClassDiagram.ExtendsClause | vendor/phpdocumentor/phpdocumentor/src/phpDocumentor/Transformer/Writer/Graph/PlantumlClassDiagram.php:85-92 | ` extends ` and the escaped parent name when there is a parent, otherwise nothing |
| PlantumlClassDiagram.ListClause | vendor/phpdocumentor/phpdocumentor/src/phpDocumentor/Transformer/Writer/Graph/PlantumlClassDiagram.php:103-107 | the lead and the comma-joined names when there are names, otherwise nothing |
| PlantumlClassDiagram.ClassHeader | vendor/phpdocumentor/phpdocumentor/src/phpDocumentor/Transformer/Writer/Graph/PlantumlClassDiagram.php:119 | optional `abstract `, `class `, the escaped name, the extends clause, then the implements list |
| PlantumlClassDiagram.InterfaceHeader | vendor/phpdocumentor/phpdocumentor/src/phpDocumentor/Transformer/Writer/Graph/PlantumlClassDiagram.php:146 | `interface `, the escaped name, then the extends list |
| PlantumlClassDiagram.TraitHeader | vendor/phpdocumentor/phpdocumentor/src/phpDocumentor/Transformer/Writer/Graph/PlantumlClassDiagram.php:166 | `class `, the escaped name, then the trait stereotype |
| PlantumlClassDiagram.Block | vendor/phpdocumentor/phpdocumentor/src/phpDocumentor/Transformer/Writer/Graph/PlantumlClassDiagram.php:117-122 | the heredoc of a block: a line break, the header, ` {`, a line break, `}` and a line break |
| PlantumlClassDiagram.Markup | vendor/phpdocumentor/phpdocumentor/src/phpDocumentor/Transformer/Writer/Graph/PlantumlClassDiagram.php:77-177 | the markup of a tree: the namespace's own part, then each child's markup in child order |
| PlantumlClassDiagram.Document | vendor/phpdocumentor/phpdocumentor/src/phpDocumentor/Transformer/Writer/Graph/PlantumlClassDiagram.php:57-65 | the header followed directly by the root namespace's markup |
| PlantumlClassDiagram.Falsy | vendor/phpdocumentor/phpdocumentor/src/phpDocumentor/Transformer/Writer/Graph/PlantumlClassDiagram.php:68 | `! $output` for the backend's result: true for null or false, for the empty string and for "0" |
| PlantumlClassDiagram.Create | vendor/phpdocumentor/phpdocumentor/src/phpDocumentor/Transformer/Writer/Graph/PlantumlClassDiagram.php:40-75 | a non-API set is skipped. Otherwise the document is the header followed by the namespace markup. A falsy backend result (null, false, "" or "0") logs the failure message. Any other result is written to the file as is |
| PlantumlClassDiagram.RenderNamespace | vendor/phpdocumentor/phpdocumentor/src/phpDocumentor/Transformer/Writer/Graph/PlantumlClassDiagram.php:77-177 | the result is the tree's markup: own classes, interfaces and traits, then every child's markup in child order |
| PlantumlClassDiagram.RenderOwn | vendor/phpdocumentor/phpdocumentor/src/phpDocumentor/Transformer/Writer/Graph/PlantumlClassDiagram.php:79-170 | a namespace's own part is all class output, then all interface blocks, then all trait blocks |
| PlantumlClassDiagram.AppendClasses | vendor/phpdocumentor/phpdocumentor/src/phpDocumentor/Transformer/Writer/Graph/PlantumlClassDiagram.php:81-123 | the class loop appends the markup of every class in registry order |
| PlantumlClassDiagram.AppendClass | vendor/phpdocumentor/phpdocumentor/src/phpDocumentor/Transformer/Writer/Graph/PlantumlClassDiagram.php:82-122 | one class appends its uses edges and then its block, header as ClassHeader |
| PlantumlClassDiagram.AppendUsesEdges | vendor/phpdocumentor/phpdocumentor/src/phpDocumentor/Transformer/Writer/Graph/PlantumlClassDiagram.php:109-115 | one edge line per used trait, in order, each `esc(trait) <-- esc(owner) : uses` and an end of line |
| PlantumlClassDiagram.CollectNames | vendor/phpdocumentor/phpdocumentor/src/phpDocumentor/Transformer/Writer/Graph/PlantumlClassDiagram.php:94-101 | the collected list is the escaped names of the references in order |
| PlantumlClassDiagram.AppendInterfaces | vendor/phpdocumentor/phpdocumentor/src/phpDocumentor/Transformer/Writer/Graph/PlantumlClassDiagram.php:126-150 | the interface loop appends the block of every interface in registry order |
| PlantumlClassDiagram.AppendInterface | vendor/phpdocumentor/phpdocumentor/src/phpDocumentor/Transformer/Writer/Graph/PlantumlClassDiagram.php:127-149 | one interface appends its block with `interface`, the escaped name and the extends list |
| PlantumlClassDiagram.AppendTraits | vendor/phpdocumentor/phpdocumentor/src/phpDocumentor/Transformer/Writer/Graph/PlantumlClassDiagram.php:153-170 | the trait loop appends the markup of every trait in registry order |
| PlantumlClassDiagram.AppendTrait | vendor/phpdocumentor/phpdocumentor/src/phpDocumentor/Transformer/Writer/Graph/PlantumlClassDiagram.php:154-169 | one trait appends its own uses edges and then its stereotyped block |
| PlantumlClassDiagram.AppendChildren | vendor/phpdocumentor/phpdocumentor/src/phpDocumentor/Transformer/Writer/Graph/PlantumlClassDiagram.php:172-174 | every child namespace's markup is appended in child order |
| PlantumlClassDiagram.AppendChild | vendor/phpdocumentor/phpdocumentor/src/phpDocumentor/Transformer/Writer/Graph/PlantumlClassDiagram.php:173 | one child's rendering is appended after the children before it |
| DiagramProperties.OwnMarkupEmpty | vendor/phpdocumentor/phpdocumentor/src/phpDocumentor/Transformer/Writer/Graph/PlantumlClassDiagram.php:79-170 | a namespace's own part is empty exactly when it has no class, interface or trait |
| DiagramProperties.MarkupEmptyIff | vendor/phpdocumentor/phpdocumentor/src/phpDocumentor/Transformer/Writer/Graph/PlantumlClassDiagram.php:77-177 | a tree renders to the empty string exactly when no namespace in it declares a class, interface or trait |
| DiagramProperties.ChildrenEmptyIff | vendor/phpdocumentor/phpdocumentor/src/phpDocumentor/Transformer/Writer/Graph/PlantumlClassDiagram.php:172-174 | the children add nothing exactly when each child tree is blank |
| DiagramProperties.BlankDocument | vendor/phpdocumentor/phpdocumentor/src/phpDocumentor/Transformer/Writer/Graph/PlantumlClassDiagram.php:57-65 | with nothing declared the backend receives the header alone |
| DiagramProperties.MarkupIsPreOrder | vendor/phpdocumentor/phpdocumentor/src/phpDocumentor/Transformer/Writer/Graph/PlantumlClassDiagram.php:77-177 | the markup is every namespace's own part, visited depth first, parent before children, children in order |
| DiagramProperties.TreePartsPreOrder | vendor/phpdocumentor/phpdocumentor/src/phpDocumentor/Transformer/Writer/Graph/PlantumlClassDiagram.php:172-174 | the depth-first fold over the tree equals the fold over its pre-order list of namespaces |
| DiagramProperties.ClassesMarkupAppend | vendor/phpdocumentor/phpdocumentor/src/phpDocumentor/Transformer/Writer/Graph/PlantumlClassDiagram.php:81-123 | classes render in list order: the markup of a concatenation is the concatenation of markups |
| DiagramProperties.InterfacesMarkupAppend | vendor/phpdocumentor/phpdocumentor/src/phpDocumentor/Transformer/Writer/Graph/PlantumlClassDiagram.php:126-150 | interfaces render in list order |
| DiagramProperties.TraitsMarkupAppend | vendor/phpdocumentor/phpdocumentor/src/phpDocumentor/Transformer/Writer/Graph/PlantumlClassDiagram.php:153-170 | traits render in list order |
| DiagramReading.UnescapeNames | vendor/phpdocumentor/phpdocumentor/src/phpDocumentor/Transformer/Writer/Graph/PlantumlClassDiagram.php:94-101 | each list entry unescapes to the name of the reference it was built from |
| DiagramReading.ReadNameList | vendor/phpdocumentor/phpdocumentor/src/phpDocumentor/Transformer/Writer/Graph/PlantumlClassDiagram.php:103-104 | cutting the implements list at the commas and unescaping each entry gives back the reference names in order |
| DiagramReading.ClassHeaderWords | vendor/phpdocumentor/phpdocumentor/src/phpDocumentor/Transformer/Writer/Graph/PlantumlClassDiagram.php:119 | the class header's words are an optional `abstract`, `class`, the name, an optional `extends` and parent, then an optional `implements` and the list |
| DiagramReading.ReadClassHeaderRoundTrip | vendor/phpdocumentor/phpdocumentor/src/phpDocumentor/Transformer/Writer/Graph/PlantumlClassDiagram.php:82-119 | the class header reads back as the class. `abstract` appears exactly for an abstract class. An extends clause appears exactly when there is a parent, naming it. An implements list appears exactly when there are interfaces, and holds them all in order |
| DiagramReading.InterfaceHeaderWords | vendor/phpdocumentor/phpdocumentor/src/phpDocumentor/Transformer/Writer/Graph/PlantumlClassDiagram.php:146 | the interface header's words are `interface`, the name, then an optional `extends` and the list |
| DiagramReading.ReadInterfaceHeaderRoundTrip | vendor/phpdocumentor/phpdocumentor/src/phpDocumentor/Transformer/Writer/Graph/PlantumlClassDiagram.php:126-146 | the interface header reads back as the interface: an extends list exactly when it has parents, all parents in order |
| DiagramReading.ReadTraitHeaderRoundTrip | vendor/phpdocumentor/phpdocumentor/src/phpDocumentor/Transformer/Writer/Graph/PlantumlClassDiagram.php:153-166 | every trait header is `class`, the escaped name and the trait stereotype, and reads back as the trait |
| DiagramLines.UsesEdgesSplit | vendor/phpdocumentor/phpdocumentor/src/phpDocumentor/Transformer/Writer/Graph/PlantumlClassDiagram.php:109-115 | the uses edges are one line per trait, in list order, followed by whatever comes next |
| DiagramLines.HeaderLines | vendor/phpdocumentor/phpdocumentor/src/phpDocumentor/Transformer/Writer/Graph/PlantumlClassDiagram.php:57-63 | cut at line breaks, the header is the five layout directives, then a blank line, and the markup starts on the next line |
| DiagramLines.BlockSplit | vendor/phpdocumentor/phpdocumentor/src/phpDocumentor/Transformer/Writer/Graph/PlantumlClassDiagram.php:117-122 | a block is a blank line, the header with its opening brace, the closing brace and an empty rest |
| DiagramLines.ClassMarkupLines | vendor/phpdocumentor/phpdocumentor/src/phpDocumentor/Transformer/Writer/Graph/PlantumlClassDiagram.php:109-122 | a class's markup, line by line, is its uses edges in order followed at once by its block |
| DiagramLines.InterfaceMarkupLines | vendor/phpdocumentor/phpdocumentor/src/phpDocumentor/Transformer/Writer/Graph/PlantumlClassDiagram.php:144-149 | an interface's markup is its block alone |
| DiagramLines.TraitMarkupLines | vendor/phpdocumentor/phpdocumentor/src/phpDocumentor/Transformer/Writer/Graph/PlantumlClassDiagram.php:156-169 | a trait's markup, line by line, is its own uses edges in order followed by its stereotyped block |
| NamespaceNodeToContext.StripLeadingSeparator | vendor/phpdocumentor/reflection/tests/unit/phpDocumentor/Reflection/Types/NamespaceNodeToContextTest.php:68-71 | the result is the name, or the name with one leading backslash removed |
| NamespaceNodeToContext.ItemEntry | vendor/phpdocumentor/reflection/tests/unit/phpDocumentor/Reflection/Types/NamespaceNodeToContextTest.php:33-50 | the table entry of one imported name: key is the alias, else the last segment of the name; value is the name without a leading backslash, prefixed by the group prefix and a backslash in a group |
| NamespaceNodeToContext.ItemEntryShape | vendor/phpdocumentor/reflection/tests/unit/phpDocumentor/Reflection/Types/NamespaceNodeToContextTest.php:33-50 | the key is the alias when given and otherwise holds no backslash; without a group the value is the name without its leading backslash, and in a group it holds a backslash |
| NamespaceNodeToContext.Aliased | vendor/phpdocumentor/reflection/tests/unit/phpDocumentor/Reflection/Types/NamespaceNodeToContextTest.php:34-36 | only normal and unknown-kind imports go into the table |
| NamespaceNodeToContext.Contributes | vendor/phpdocumentor/reflection/tests/unit/phpDocumentor/Reflection/Types/NamespaceNodeToContextTest.php:51 | a use or group use of a class-like kind contributes; any other statement does not |
| NamespaceNodeToContext.StmtEntries | vendor/phpdocumentor/reflection/tests/unit/phpDocumentor/Reflection/Types/NamespaceNodeToContextTest.php:33-51 | the entries of one statement: one per imported name for a contributing statement, none otherwise |
| NamespaceNodeToContext.StmtEntriesFilter | vendor/phpdocumentor/reflection/tests/unit/phpDocumentor/Reflection/Types/NamespaceNodeToContextTest.php:34-36 | constant imports, function imports and other statements add nothing; a class-like import adds one entry per name |
| NamespaceNodeToContext.Entries | vendor/phpdocumentor/reflection/tests/unit/phpDocumentor/Reflection/Types/NamespaceNodeToContextTest.php:30-53 | the entries of all statements, in declaration order |
| NamespaceNodeToContext.EntriesWithoutImports | vendor/phpdocumentor/reflection/tests/unit/phpDocumentor/Reflection/Types/NamespaceNodeToContextTest.php:51 | a statement list without a class-like import adds nothing to the table |
| NamespaceNodeToContext.LastSegment | vendor/phpdocumentor/reflection/tests/unit/phpDocumentor/Reflection/Types/NamespaceNodeToContextTest.php:37-39 | the default key holds no backslash and is no longer than the name |
| NamespaceNodeToContext.LastSegmentIsSuffix | vendor/phpdocumentor/reflection/tests/unit/phpDocumentor/Reflection/Types/NamespaceNodeToContextTest.php:79-81 | the default key is the end of the name: either the whole name, or what follows its final backslash |
| NamespaceNodeToContext.LastSegmentAfterSeparator | vendor/phpdocumentor/reflection/tests/unit/phpDocumentor/Reflection/Types/NamespaceNodeToContextTest.php:37-39 | whatever precedes the final backslash does not change the default key |
| NamespaceNodeToContext.LastSegmentOfSimpleName | vendor/phpdocumentor/reflection/tests/unit/phpDocumentor/Reflection/Types/NamespaceNodeToContextTest.php:77 | a single-segment name is its own default key |
| NamespaceNodeToContext.Insert | vendor/phpdocumentor/reflection/tests/unit/phpDocumentor/Reflection/Types/NamespaceNodeToContextTest.php:76-88 | the table's keys are the old keys plus the key of every entry |
| NamespaceNodeToContext.MapOf | vendor/phpdocumentor/reflection/tests/unit/phpDocumentor/Reflection/Types/NamespaceNodeToContextTest.php:76-88 | the alias table has exactly the keys of the entries |
| NamespaceNodeToContext.MapOfLastWins | vendor/phpdocumentor/reflection/tests/unit/phpDocumentor/Reflection/Types/NamespaceNodeToContextTest.php:76-88 | an entry that no later entry shadows is in the table with its own value (a later import of the same key wins) |
| NamespaceNodeToContext.Convert | vendor/phpdocumentor/reflection/tests/unit/phpDocumentor/Reflection/Types/NamespaceNodeToContextTest.php:24 | no node, or an unnamed one, gives the empty Context. A named one keeps its name without a leading backslash |
| NamespaceNodeToContext.StripLeadingSeparatorOnce | vendor/phpdocumentor/reflection/tests/unit/phpDocumentor/Reflection/Types/NamespaceNodeToContextTest.php:68-71 | a name with one leading backslash resolves like the same name without it |
| NamespaceNodeToContext.ItemEntryLeadingSeparator | vendor/phpdocumentor/reflection/tests/unit/phpDocumentor/Reflection/Types/NamespaceNodeToContextTest.php:50 | an import gives the same entry with or without a leading backslash |
| NamespaceNodeToContext.ConvertLeadingSeparator | vendor/phpdocumentor/reflection/tests/unit/phpDocumentor/Reflection/Types/NamespaceNodeToContextTest.php:68-71 | the whole Context is the same whether or not the namespace name has a leading backslash |
| NamespaceNodeToContext.Imports | vendor/phpdocumentor/reflection/tests/unit/phpDocumentor/Reflection/Types/NamespaceNodeToContextTest.php:34-36 | the contributing statements, in order, are all normal or unknown-kind imports |
| NamespaceNodeToContext.EntriesOfImports | vendor/phpdocumentor/reflection/tests/unit/phpDocumentor/Reflection/Types/NamespaceNodeToContextTest.php:34-36 | dropping constant and function imports and other statements leaves the entries unchanged |
| NamespaceNodeToContext.ConvertSeesOnlyImports | vendor/phpdocumentor/reflection/tests/unit/phpDocumentor/Reflection/Types/NamespaceNodeToContextTest.php:51 | the Context depends only on the class-like imports, so a class node is ignored |
| NamespaceNodeToContext.EntriesAppend | vendor/phpdocumentor/reflection/tests/unit/phpDocumentor/Reflection/Types/NamespaceNodeToContextTest.php:30-53 | statements contribute in declaration order |
| NamespaceNodeToContext.InsertAppend | vendor/phpdocumentor/reflection/tests/unit/phpDocumentor/Reflection/Types/NamespaceNodeToContextTest.php:76-88 | inserting two entry lists one after the other is inserting their concatenation |
| NamespaceNodeToContext.InsertKeeps | vendor/phpdocumentor/reflection/tests/unit/phpDocumentor/Reflection/Types/NamespaceNodeToContextTest.php:76-88 | a key no entry mentions keeps its value |
| NamespaceNodeToContext.AbsentNamespaces | vendor/phpdocumentor/reflection/tests/unit/phpDocumentor/Reflection/Types/NamespaceNodeToContextTest.php:56-63 | no namespace, and a namespace without a name, give the empty Context |
| NamespaceNodeToContext.NamedNamespaces | vendor/phpdocumentor/reflection/tests/unit/phpDocumentor/Reflection/Types/NamespaceNodeToContextTest.php:64-71 | `Foo\Bar` and `\Foo\Bar` both give namespace `Foo\Bar` with no aliases |
| NamespaceNodeToContext.SimpleImport | vendor/phpdocumentor/reflection/tests/unit/phpDocumentor/Reflection/Types/NamespaceNodeToContextTest.php:33 | an unaliased single-segment import of normal or unknown kind maps the name to itself |
| NamespaceNodeToContext.QualifiedImport | vendor/phpdocumentor/reflection/tests/unit/phpDocumentor/Reflection/Types/NamespaceNodeToContextTest.php:37-39 | an unaliased qualified import maps its last segment to the full name |
| NamespaceNodeToContext.AliasedImport | vendor/phpdocumentor/reflection/tests/unit/phpDocumentor/Reflection/Types/NamespaceNodeToContextTest.php:41-42 | an aliased import maps the alias to the original name |
| NamespaceNodeToContext.GroupImport | vendor/phpdocumentor/reflection/tests/unit/phpDocumentor/Reflection/Types/NamespaceNodeToContextTest.php:43-49 | a group import maps each subname (or its alias) to prefix, backslash, subname |
| NamespaceNodeToContext.LeadingSeparatorImport | vendor/phpdocumentor/reflection/tests/unit/phpDocumentor/Reflection/Types/NamespaceNodeToContextTest.php:50 | a leading backslash is stripped from both key and value |
| NamespaceNodeToContext.WithImportsTable | vendor/phpdocumentor/reflection/tests/unit/phpDocumentor/Reflection/Types/NamespaceNodeToContextTest.php:76-88 | the test namespace's statements give exactly the eleven expected aliases |
| NamespaceNodeToContext.ComplexUseStatement | vendor/phpdocumentor/reflection/tests/unit/phpDocumentor/Reflection/Types/NamespaceNodeToContextTest.php:72-89 | the test namespace converts to `With\Imports` with exactly the expected alias table |
| Php.Namespace.constructor | vendor/phpdocumentor/reflection/tests/unit/phpDocumentor/Reflection/Php/Namespace_Test.php:41-47 | a new namespace keeps its Fqsen and has five empty registries |
| Php.Namespace.AddClass | vendor/phpdocumentor/reflection/tests/unit/phpDocumentor/Reflection/Php/Namespace_Test.php:58-61 | the class is stored under its string form; the other registries are unchanged |
| Php.Namespace.AddConstant | vendor/phpdocumentor/reflection/tests/unit/phpDocumentor/Reflection/Php/Namespace_Test.php:68-71 | the constant is stored under its string form; the other registries are unchanged |
| Php.Namespace.AddFunction | vendor/phpdocumentor/reflection/tests/unit/phpDocumentor/Reflection/Php/Namespace_Test.php:78-81 | the function is stored under its string form; the other registries are unchanged |
| Php.Namespace.AddInterface | vendor/phpdocumentor/reflection/tests/unit/phpDocumentor/Reflection/Php/Namespace_Test.php:88-91 | the interface is stored under its string form; the other registries are unchanged |
| Php.Namespace.AddTrait | vendor/phpdocumentor/reflection/tests/unit/phpDocumentor/Reflection/Php/Namespace_Test.php:98-101 | the trait is stored under its string form; the other registries are unchanged |
| Php.Namespace.GetClasses | vendor/phpdocumentor/reflection/tests/unit/phpDocumentor/Reflection/Php/Namespace_Test.php:61 | every class in the registry sits under its own string form |
| Php.Namespace.GetConstants | vendor/phpdocumentor/reflection/tests/unit/phpDocumentor/Reflection/Php/Namespace_Test.php:71 | every constant in the registry sits under its own string form |
| Php.Namespace.GetFunctions | vendor/phpdocumentor/reflection/tests/unit/phpDocumentor/Reflection/Php/Namespace_Test.php:81 | every function in the registry sits under its own string form |
| Php.Namespace.GetInterfaces | vendor/phpdocumentor/reflection/tests/unit/phpDocumentor/Reflection/Php/Namespace_Test.php:91 | every interface in the registry sits under its own string form |
| Php.Namespace.GetTraits | vendor/phpdocumentor/reflection/tests/unit/phpDocumentor/Reflection/Php/Namespace_Test.php:101 | every trait in the registry sits under its own string form |
| Php.AddAndGetClasses | vendor/phpdocumentor/reflection/tests/unit/phpDocumentor/Reflection/Php/Namespace_Test.php:54-62 | a fresh namespace has no classes, and after one class is added it holds exactly that class under `\MySpace\MyClass` |
| Php.AddAndGetConstants | vendor/phpdocumentor/reflection/tests/unit/phpDocumentor/Reflection/Php/Namespace_Test.php:64-72 | the same for a constant, under `\MySpace::MY_CONSTANT` |
| Php.AddAndGetFunctions | vendor/phpdocumentor/reflection/tests/unit/phpDocumentor/Reflection/Php/Namespace_Test.php:74-82 | the same for a function, under `\MySpace\MyFunction()` |
| Php.AddAndGetInterfaces | vendor/phpdocumentor/reflection/tests/unit/phpDocumentor/Reflection/Php/Namespace_Test.php:84-92 | the same for an interface, under `\MySpace\MyInterface` |
| Php.AddAndGetTraits | vendor/phpdocumentor/reflection/tests/unit/phpDocumentor/Reflection/Php/Namespace_Test.php:94-102 | the same for a trait, under `\MySpace\MyTrait` |
| Php.GetFqsenAndName | vendor/phpdocumentor/reflection/tests/unit/phpDocumentor/Reflection/Php/Namespace_Test.php:104-108 | the namespace gives back the Fqsen it was created with, and that Fqsen's name |

## Left out

- Writing the file, the logger and the rendering backend are not executed. `Create` takes the backend as a function parameter and returns what it would do: skip, log the failure message, or write given contents to a given file.
- The anonymous `RenderContext` passed to the backend carries nothing the writer reads, so it is not modelled.
- `PHP_EOL` is modelled as a line feed.
- PHP strings are bytes. They are modelled as characters, which behave the same for everything `addslashes`, `implode` and the markup use.
- Reference kinds: the writer tests whether a parent, interface or trait reference is a descriptor of the expected class (`instanceof`). The model gives each reference as `Resolved(fqsen)` or `Unresolved(text)` and uses the name that branch would render. How the descriptor tree is built, and which object lands in which branch, is not part of this model.
- `renderNamespace` is one method in the source. The model splits each of its loops, and each loop body, into a method of its own. They produce the same output in the same order.
- DiagramReading.ReadClassHeaderRoundTrip: requires every name to be free of spaces, commas and line breaks (as PHP names are). Otherwise a header could not be cut back into words. The same holds for ReadInterfaceHeaderRoundTrip, ReadNameList, ClassHeaderWords and InterfaceHeaderWords, and for ClassMarkupLines, InterfaceMarkupLines, TraitMarkupLines and UsesEdgesSplit (line breaks).
- The converter's own source and the PHP-Parser node classes are not part of this model. Nodes are small datatypes: a name is a string, and a statement is a use, a group use or anything else.
- The converter is modelled from its test. Two points go beyond it:
  - Constant and function imports are left out of the alias table, as the test expects (NamespaceNodeToContextTest.php:34-35 against :76-88).
  - A node without a name gives the empty Context even when it has statements. The test's only unnamed node (:60-63) has none, so the test does not decide this case.
- NamespaceNodeToContext.StripLeadingSeparator: removes one leading backslash, the case the test shows. Names with several leading backslashes are not covered by any test.
- Under a group import the subname also loses a leading backslash, and its last segment is the default key. The test only shows plain subnames.
- Context's own normalisation of its arguments is not part of this model. The Context is a plain value.
- Duplicate keys: a later import under the same key replaces an earlier one, and a second add of the same Fqsen string replaces the first. No policy beyond plain PHP array assignment is asserted.
- Php.Namespace: Fqsen parsing, the DocBlock and the metadata container are not part of this model. An Fqsen carries its string form and its name as given. getFqsen returns the same object in the source; the model returns an equal value.
- Php.Namespace: the registries are Dafny maps. The PHP arrays the getters return keep insertion order; that order is not modelled.
