/**
 * Properties of the class-diagram markup: when it is empty, the order in
 * which namespaces, classes, interfaces and traits appear, and how each
 * block header and "uses" edge reads back into its parts.
 */
module DiagramProperties {

  import opened Optional
  import opened Strings
  import opened Descriptors
  import opened PlantumlClassDiagram

  // ----- empty output -----

  /** No class, interface or trait anywhere in the tree. */
  predicate Blank(ns: NamespaceDescriptor)
    decreases ns
  {
    ns.classes == [] && ns.interfaces == [] && ns.traits == []
    && forall k :: 0 <= k < |ns.children| ==> Blank(ns.children[k])
  }

  lemma OwnMarkupEmpty(ns: NamespaceDescriptor)
    ensures OwnMarkup(ns) == "" <==> ns.classes == [] && ns.interfaces == [] && ns.traits == []
  {
    if ns.classes != [] {
      assert |ClassMarkup(ns.classes[|ns.classes| - 1])| > 0;
    }
    if ns.interfaces != [] {
      assert |InterfaceMarkup(ns.interfaces[|ns.interfaces| - 1])| > 0;
    }
    if ns.traits != [] {
      assert |TraitMarkup(ns.traits[|ns.traits| - 1])| > 0;
    }
  }

  /** A namespace tree renders to the empty string exactly when it declares nothing. */
  lemma {:induction false} MarkupEmptyIff(ns: NamespaceDescriptor)
    ensures Markup(ns) == "" <==> Blank(ns)
    decreases ns, |ns.children| + 1
  {
    OwnMarkupEmpty(ns);
    ChildrenEmptyIff(ns, |ns.children|);
  }

  /** The first n children render to nothing exactly when each of them is blank. */
  lemma {:induction false} ChildrenEmptyIff(ns: NamespaceDescriptor, n: nat)
    requires n <= |ns.children|
    ensures ChildrenMarkup(ns, n) == "" <==> forall k :: 0 <= k < n ==> Blank(ns.children[k])
    decreases ns, n
  {
    if n > 0 {
      ChildrenEmptyIff(ns, n - 1);
      MarkupEmptyIff(ns.children[n - 1]);
    }
  }

  /** With nothing declared, the backend receives the layout header alone. */
  lemma BlankDocument(root: NamespaceDescriptor)
    requires Blank(root)
    ensures Document(root) == Header
  {
    MarkupEmptyIff(root);
  }

  // ----- order -----

  lemma DropLastOfAppend<T>(a: seq<T>, b: seq<T>)
    requires b != []
    ensures (a + b)[..|a + b| - 1] == a + b[..|b| - 1]
    ensures (a + b)[|a + b| - 1] == b[|b| - 1]
  {
    assert (a + b)[..|a + b| - 1] == a + b[..|b| - 1];
  }

  /** Every namespace of the tree, parents before children, children in order. */
  function PreOrder(ns: NamespaceDescriptor): seq<NamespaceDescriptor>
    decreases ns, |ns.children| + 1
  {
    [ns] + ForestPreOrder(ns, |ns.children|)
  }

  function ForestPreOrder(ns: NamespaceDescriptor, n: nat): seq<NamespaceDescriptor>
    requires n <= |ns.children|
    decreases ns, n
  {
    if n == 0 then [] else ForestPreOrder(ns, n - 1) + PreOrder(ns.children[n - 1])
  }

  /** The parts `part` gives for a list of namespaces, one after the other. */
  function Parts(nss: seq<NamespaceDescriptor>, part: NamespaceDescriptor -> string): string {
    if nss == [] then "" else Parts(nss[..|nss| - 1], part) + part(nss[|nss| - 1])
  }

  lemma {:induction false} PartsAppend(a: seq<NamespaceDescriptor>, b: seq<NamespaceDescriptor>, part: NamespaceDescriptor -> string)
    ensures Parts(a + b, part) == Parts(a, part) + Parts(b, part)
    decreases |b|
  {
    if b == [] {
      assert a + b == a;
    } else {
      PartsAppend(a, b[..|b| - 1], part);
      DropLastOfAppend(a, b);
      AppendAssociates(Parts(a, part), Parts(b[..|b| - 1], part), part(b[|b| - 1]));
    }
  }

  /** A depth-first fold: a namespace's part, then the fold of each child in order. */
  function TreeParts(ns: NamespaceDescriptor, part: NamespaceDescriptor -> string): string
    decreases ns, |ns.children| + 1
  {
    part(ns) + ForestParts(ns, |ns.children|, part)
  }

  function ForestParts(ns: NamespaceDescriptor, n: nat, part: NamespaceDescriptor -> string): string
    requires n <= |ns.children|
    decreases ns, n
  {
    if n == 0 then "" else ForestParts(ns, n - 1, part) + ChildParts(ns, n - 1, part)
  }

  function ChildParts(ns: NamespaceDescriptor, k: nat, part: NamespaceDescriptor -> string): string
    requires k < |ns.children|
    decreases ns, k
  {
    TreeParts(ns.children[k], part)
  }

  /** The depth-first fold is the parts of the pre-order namespace list. */
  lemma {:induction false} TreePartsPreOrder(ns: NamespaceDescriptor, part: NamespaceDescriptor -> string)
    ensures TreeParts(ns, part) == Parts(PreOrder(ns), part)
    decreases ns, |ns.children| + 1
  {
    ForestPartsPreOrder(ns, |ns.children|, part);
    PartsAppend([ns], ForestPreOrder(ns, |ns.children|), part);
    assert Parts([ns], part) == part(ns) by {
      assert [ns][..0] == [];
    }
  }

  lemma {:induction false} ForestPartsPreOrder(ns: NamespaceDescriptor, n: nat, part: NamespaceDescriptor -> string)
    requires n <= |ns.children|
    ensures ForestParts(ns, n, part) == Parts(ForestPreOrder(ns, n), part)
    decreases ns, n
  {
    if n == 0 {
      assert ForestPreOrder(ns, n) == [];
    } else {
      var child := ns.children[n - 1];
      ForestPartsPreOrder(ns, n - 1, part);
      TreePartsPreOrder(child, part);
      PartsAppend(ForestPreOrder(ns, n - 1), PreOrder(child), part);
    }
  }

  /** The markup is the depth-first fold of each namespace's own part. */
  lemma {:induction false} MarkupIsTreeParts(ns: NamespaceDescriptor)
    ensures Markup(ns) == TreeParts(ns, OwnMarkup)
    decreases ns, |ns.children| + 1
  {
    ChildrenAreForestParts(ns, |ns.children|);
  }

  lemma {:induction false} ChildrenAreForestParts(ns: NamespaceDescriptor, n: nat)
    requires n <= |ns.children|
    ensures ChildrenMarkup(ns, n) == ForestParts(ns, n, OwnMarkup)
    decreases ns, n
  {
    if n > 0 {
      ChildrenAreForestParts(ns, n - 1);
      ChildIsParts(ns, n - 1);
    }
  }

  lemma {:induction false} ChildIsParts(ns: NamespaceDescriptor, k: nat)
    requires k < |ns.children|
    ensures ChildMarkup(ns, k) == ChildParts(ns, k, OwnMarkup)
    decreases ns, k
  {
    MarkupIsTreeParts(ns.children[k]);
  }

  /**
   * The whole rendering is each namespace's own classes, interfaces and
   * traits, visited depth first with a parent before its children and
   * children in order.
   */
  lemma MarkupIsPreOrder(ns: NamespaceDescriptor)
    ensures Markup(ns) == Parts(PreOrder(ns), OwnMarkup)
  {
    MarkupIsTreeParts(ns);
    TreePartsPreOrder(ns, OwnMarkup);
  }

  /** Classes render in list order: the markup of a concatenation is the concatenation of markups. */
  lemma {:induction false} ClassesMarkupAppend(a: seq<ClassDescriptor>, b: seq<ClassDescriptor>)
    ensures ClassesMarkup(a + b) == ClassesMarkup(a) + ClassesMarkup(b)
    decreases |b|
  {
    if b == [] {
      assert a + b == a;
    } else {
      ClassesMarkupAppend(a, b[..|b| - 1]);
      DropLastOfAppend(a, b);
      AppendAssociates(ClassesMarkup(a), ClassesMarkup(b[..|b| - 1]), ClassMarkup(b[|b| - 1]));
    }
  }

  /** Interfaces render in list order. */
  lemma {:induction false} InterfacesMarkupAppend(a: seq<InterfaceDescriptor>, b: seq<InterfaceDescriptor>)
    ensures InterfacesMarkup(a + b) == InterfacesMarkup(a) + InterfacesMarkup(b)
    decreases |b|
  {
    if b == [] {
      assert a + b == a;
    } else {
      InterfacesMarkupAppend(a, b[..|b| - 1]);
      DropLastOfAppend(a, b);
      AppendAssociates(InterfacesMarkup(a), InterfacesMarkup(b[..|b| - 1]), InterfaceMarkup(b[|b| - 1]));
    }
  }

  /** Traits render in list order. */
  lemma {:induction false} TraitsMarkupAppend(a: seq<TraitDescriptor>, b: seq<TraitDescriptor>)
    ensures TraitsMarkup(a + b) == TraitsMarkup(a) + TraitsMarkup(b)
    decreases |b|
  {
    if b == [] {
      assert a + b == a;
    } else {
      TraitsMarkupAppend(a, b[..|b| - 1]);
      DropLastOfAppend(a, b);
      AppendAssociates(TraitsMarkup(a), TraitsMarkup(b[..|b| - 1]), TraitMarkup(b[|b| - 1]));
    }
  }
}
