/**
 * The descriptor tree the class-diagram writer reads: one node per
 * namespace, with its classes, interfaces and traits in registry order and
 * its child namespaces in child order. The tree is built elsewhere and only
 * read here.
 */
module Descriptors {

  import opened Optional

  /**
   * A reference to a parent class, an interface or a trait: either a
   * descriptor found in the documented set (rendered by its fully
   * qualified structural element name) or a bare name for a symbol outside
   * the set (rendered by its string form).
   */
  datatype Ref = Resolved(fqsen: string) | Unresolved(text: string)

  /** The name under which a reference appears in the diagram. */
  function RefName(r: Ref): string {
    match r
    case Resolved(fqsen) => fqsen
    case Unresolved(text) => text
  }

  datatype ClassDescriptor = ClassDescriptor(
    fqsen: string,
    isAbstract: bool,
    parent: Option<Ref>,
    interfaces: seq<Ref>,
    usedTraits: seq<Ref>)

  /** An interface may extend several parent interfaces. */
  datatype InterfaceDescriptor = InterfaceDescriptor(fqsen: string, parents: seq<Ref>)

  datatype TraitDescriptor = TraitDescriptor(fqsen: string, usedTraits: seq<Ref>)

  datatype NamespaceDescriptor = NamespaceDescriptor(
    classes: seq<ClassDescriptor>,
    interfaces: seq<InterfaceDescriptor>,
    traits: seq<TraitDescriptor>,
    children: seq<NamespaceDescriptor>)

  /** The kinds of documentation set; the class diagram is drawn only for an API set, any other set is skipped. */
  datatype DocumentationSet = ApiSet(namespace: NamespaceDescriptor) | OtherSet
}
