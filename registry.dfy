/**
 * The namespace element of the reflection library: the fully qualified
 * name it was created with, and one registry per kind of element declared
 * in it (classes, constants, functions, interfaces and traits). Each
 * registry maps the string form of an element's name to the name itself;
 * adding an element stores it under that string, and nothing else changes.
 */
module Php {

  /**
   * A fully qualified structural element name: its string form, leading
   * backslash included, and the short name it ends in.
   */
  datatype Fqsen = Fqsen(text: string, name: string)

  /** Every entry of a registry sits under its own string form. */
  ghost predicate KeyedByText(registry: map<string, Fqsen>) {
    forall key :: key in registry ==> registry[key].text == key
  }

  class Namespace {
    const fqsen: Fqsen
    var classes: map<string, Fqsen>
    var constants: map<string, Fqsen>
    var functions: map<string, Fqsen>
    var interfaces: map<string, Fqsen>
    var traits: map<string, Fqsen>

    /** All five registries are keyed by the string form of what they hold. */
    ghost predicate Valid()
      reads this
    {
      KeyedByText(classes) && KeyedByText(constants) && KeyedByText(functions)
      && KeyedByText(interfaces) && KeyedByText(traits)
    }

    /** A new namespace knows its name and holds no element yet. */
    constructor(fqsen: Fqsen)
      ensures Valid()
      ensures this.fqsen == fqsen
      ensures classes == map[] && constants == map[] && functions == map[]
      ensures interfaces == map[] && traits == map[]
    {
      this.fqsen := fqsen;
      classes := map[];
      constants := map[];
      functions := map[];
      interfaces := map[];
      traits := map[];
    }

    method AddClass(f: Fqsen)
      requires Valid()
      modifies this
      ensures Valid()
      ensures classes == old(classes)[f.text := f]
      ensures constants == old(constants) && functions == old(functions)
      ensures interfaces == old(interfaces) && traits == old(traits)
    {
      classes := classes[f.text := f];
    }

    method AddConstant(f: Fqsen)
      requires Valid()
      modifies this
      ensures Valid()
      ensures constants == old(constants)[f.text := f]
      ensures classes == old(classes) && functions == old(functions)
      ensures interfaces == old(interfaces) && traits == old(traits)
    {
      constants := constants[f.text := f];
    }

    method AddFunction(f: Fqsen)
      requires Valid()
      modifies this
      ensures Valid()
      ensures functions == old(functions)[f.text := f]
      ensures classes == old(classes) && constants == old(constants)
      ensures interfaces == old(interfaces) && traits == old(traits)
    {
      functions := functions[f.text := f];
    }

    method AddInterface(f: Fqsen)
      requires Valid()
      modifies this
      ensures Valid()
      ensures interfaces == old(interfaces)[f.text := f]
      ensures classes == old(classes) && constants == old(constants)
      ensures functions == old(functions) && traits == old(traits)
    {
      interfaces := interfaces[f.text := f];
    }

    method AddTrait(f: Fqsen)
      requires Valid()
      modifies this
      ensures Valid()
      ensures traits == old(traits)[f.text := f]
      ensures classes == old(classes) && constants == old(constants)
      ensures functions == old(functions) && interfaces == old(interfaces)
    {
      traits := traits[f.text := f];
    }

    /** The class registry; every class is found under its own string form. */
    function GetClasses(): (r: map<string, Fqsen>)
      requires Valid()
      reads this
      ensures forall key :: key in r ==> r[key].text == key
    {
      classes
    }

    function GetConstants(): (r: map<string, Fqsen>)
      requires Valid()
      reads this
      ensures forall key :: key in r ==> r[key].text == key
    {
      constants
    }

    function GetFunctions(): (r: map<string, Fqsen>)
      requires Valid()
      reads this
      ensures forall key :: key in r ==> r[key].text == key
    {
      functions
    }

    function GetInterfaces(): (r: map<string, Fqsen>)
      requires Valid()
      reads this
      ensures forall key :: key in r ==> r[key].text == key
    {
      interfaces
    }

    function GetTraits(): (r: map<string, Fqsen>)
      requires Valid()
      reads this
      ensures forall key :: key in r ==> r[key].text == key
    {
      traits
    }

    function GetFqsen(): Fqsen
      reads this
    {
      fqsen
    }

    function GetName(): string
      reads this
    {
      fqsen.name
    }
  }

  // ----- the registry's test cases -----

  /** The name the test namespace is created with. */
  const MySpace: Fqsen := Fqsen("\\MySpace", "MySpace")

  /**
   * A fresh namespace has no classes; after one class is added the
   * registry holds exactly that class, under its full string form.
   */
  method AddAndGetClasses() returns (before: map<string, Fqsen>, after: map<string, Fqsen>)
    ensures before == map[]
    ensures after == map["\\MySpace\\MyClass" := Fqsen("\\MySpace\\MyClass", "MyClass")]
  {
    var fixture := new Namespace(MySpace);
    before := fixture.GetClasses();
    var c := Fqsen("\\MySpace\\MyClass", "MyClass");
    fixture.AddClass(c);
    after := fixture.GetClasses();
  }

  method AddAndGetConstants() returns (before: map<string, Fqsen>, after: map<string, Fqsen>)
    ensures before == map[]
    ensures after == map["\\MySpace::MY_CONSTANT" := Fqsen("\\MySpace::MY_CONSTANT", "MY_CONSTANT")]
  {
    var fixture := new Namespace(MySpace);
    before := fixture.GetConstants();
    var constant := Fqsen("\\MySpace::MY_CONSTANT", "MY_CONSTANT");
    fixture.AddConstant(constant);
    after := fixture.GetConstants();
  }

  method AddAndGetFunctions() returns (before: map<string, Fqsen>, after: map<string, Fqsen>)
    ensures before == map[]
    ensures after == map["\\MySpace\\MyFunction()" := Fqsen("\\MySpace\\MyFunction()", "MyFunction")]
  {
    var fixture := new Namespace(MySpace);
    before := fixture.GetFunctions();
    var fn := Fqsen("\\MySpace\\MyFunction()", "MyFunction");
    fixture.AddFunction(fn);
    after := fixture.GetFunctions();
  }

  method AddAndGetInterfaces() returns (before: map<string, Fqsen>, after: map<string, Fqsen>)
    ensures before == map[]
    ensures after == map["\\MySpace\\MyInterface" := Fqsen("\\MySpace\\MyInterface", "MyInterface")]
  {
    var fixture := new Namespace(MySpace);
    before := fixture.GetInterfaces();
    var iface := Fqsen("\\MySpace\\MyInterface", "MyInterface");
    fixture.AddInterface(iface);
    after := fixture.GetInterfaces();
  }

  method AddAndGetTraits() returns (before: map<string, Fqsen>, after: map<string, Fqsen>)
    ensures before == map[]
    ensures after == map["\\MySpace\\MyTrait" := Fqsen("\\MySpace\\MyTrait", "MyTrait")]
  {
    var fixture := new Namespace(MySpace);
    before := fixture.GetTraits();
    var t := Fqsen("\\MySpace\\MyTrait", "MyTrait");
    fixture.AddTrait(t);
    after := fixture.GetTraits();
  }

  /** The namespace gives back the name it was created with, and that name's short form. */
  method GetFqsenAndName() returns (fqsen: Fqsen, name: string)
    ensures fqsen == MySpace
    ensures name == MySpace.name
  {
    var fixture := new Namespace(MySpace);
    fqsen := fixture.GetFqsen();
    name := fixture.GetName();
  }
}
