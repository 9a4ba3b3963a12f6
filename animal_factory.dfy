/** The string-keyed animal factory: a registry maps lower-cased type names to
    classes; `Register` admits only subclasses of `Animal`, and `CreateAnimal`
    looks a type name up case-insensitively and builds a fresh instance of the
    class found there, carrying the given name.

    Python classes are values of `PyClass`: the registry needs only a class's
    identity, whether `issubclass(c, Animal)` holds of it, whether it still
    has an abstract method (then instantiating it raises `TypeError`), and
    whether its own `__init__` raises when called with a name. That `__init__`
    is code outside this model; a class that does not raise is taken to store
    the name as `Animal.__init__` does, like `Dog` and `Cat`. */
module AnimalRegistry {
  import opened Wrappers

  datatype PyClass = PyClass(name: string, isAnimal: bool, isAbstract: bool, initRaises: bool)

  /** The abstract base: a subclass of itself, but its `__init__` is abstract. */
  const AnimalBase: PyClass := PyClass("Animal", true, true, false)
  const Dog: PyClass := PyClass("Dog", true, false, false)
  const Cat: PyClass := PyClass("Cat", true, false, false)

  /** `issubclass(c, Animal)`. */
  predicate IsAnimalSubclass(c: PyClass)
  {
    c.isAnimal
  }

  datatype FactoryError =
    | NotAnAnimal(cls: PyClass)     // `register`: ValueError
    | NotRegistered                 // `create_animal`: NotImplementedError
    | AbstractClass(cls: PyClass)   // instantiating a class with an abstract method: TypeError
    | InitRaised(cls: PyClass)      // the class's own `__init__` raised

  predicate IsUpper(c: char)
  {
    'A' <= c <= 'Z'
  }

  /** `str.lower` on one character, for the ASCII letters. */
  function LowerChar(c: char): (r: char)
    ensures !IsUpper(r)
    ensures IsUpper(c) ==> r as int - c as int == 'a' as int - 'A' as int
    ensures !IsUpper(c) ==> r == c
  {
    if IsUpper(c) then (c as int - 'A' as int + 'a' as int) as char else c
  }

  /** `str.lower`: the same length, each character lower-cased. */
  function Lower(s: string): (r: string)
    ensures |r| == |s|
    ensures forall i | 0 <= i < |s| :: r[i] == LowerChar(s[i])
  {
    if s == [] then [] else [LowerChar(s[0])] + Lower(s[1..])
  }

  /** Lower-casing twice is lower-casing once. */
  lemma LowerIdempotent(s: string)
    ensures Lower(Lower(s)) == Lower(s)
  {
  }

  /** The registry invariant: every key is lower-case and every class is an
      `Animal` subclass. */
  ghost predicate WellFormed(registry: map<string, PyClass>)
  {
    forall k | k in registry :: Lower(k) == k && IsAnimalSubclass(registry[k])
  }

  /** `register(t, c)`: the registry afterwards, or the error it raises. */
  function Registered(registry: map<string, PyClass>, t: string, c: PyClass)
    : (r: Result<map<string, PyClass>, FactoryError>)
    ensures r.Failure? <==> !IsAnimalSubclass(c)
    ensures r.Failure? ==> r.error == NotAnAnimal(c)
    ensures r.Success? ==>
      && r.value.Keys == registry.Keys + {Lower(t)}
      && r.value[Lower(t)] == c
      && forall k | k in registry && k != Lower(t) :: r.value[k] == registry[k]
  {
    if !IsAnimalSubclass(c) then Failure(NotAnAnimal(c))
    else Success(registry[Lower(t) := c])
  }

  /** Registration keeps the registry invariant. */
  lemma RegisteredWellFormed(registry: map<string, PyClass>, t: string, c: PyClass)
    requires WellFormed(registry)
    requires Registered(registry, t, c).Success?
    ensures WellFormed(Registered(registry, t, c).value)
  {
  }

  /** The class `create_animal(t, _)` instantiates, or the error it raises. */
  function ClassFor(registry: map<string, PyClass>, t: string): (r: Result<PyClass, FactoryError>)
    ensures r.Success? <==>
      Lower(t) in registry && !registry[Lower(t)].isAbstract && !registry[Lower(t)].initRaises
    ensures r.Success? ==> r.value == registry[Lower(t)]
    ensures Lower(t) !in registry ==> r == Failure(NotRegistered)
    ensures Lower(t) in registry && registry[Lower(t)].isAbstract ==>
      r == Failure(AbstractClass(registry[Lower(t)]))
    ensures Lower(t) in registry && !registry[Lower(t)].isAbstract && registry[Lower(t)].initRaises ==>
      r == Failure(InitRaised(registry[Lower(t)]))
  {
    var key := Lower(t);
    if key !in registry then Failure(NotRegistered)
    else if registry[key].isAbstract then Failure(AbstractClass(registry[key]))
    else if registry[key].initRaises then Failure(InitRaised(registry[key]))
    else Success(registry[key])
  }

  /** Lookup ignores case: `t` and its lower-cased form find the same class. */
  lemma CaseInsensitive(registry: map<string, PyClass>, t: string)
    ensures ClassFor(registry, t) == ClassFor(registry, Lower(t))
  {
    LowerIdempotent(t);
  }

  /** On a well-formed registry, whatever is instantiated is an `Animal`. */
  lemma CreatesAnimals(registry: map<string, PyClass>, t: string)
    requires WellFormed(registry)
    requires ClassFor(registry, t).Success?
    ensures IsAnimalSubclass(ClassFor(registry, t).value)
  {
  }

  /** Registering under `t` makes `t`, in any case, find the new class, and
      leaves every other type name's lookup as it was. */
  lemma RegisterThenCreate(registry: map<string, PyClass>, t: string, c: PyClass, u: string)
    requires IsAnimalSubclass(c) && !c.isAbstract && !c.initRaises
    ensures Lower(u) == Lower(t) ==> ClassFor(Registered(registry, t, c).value, u) == Success(c)
    ensures Lower(u) != Lower(t) ==> ClassFor(Registered(registry, t, c).value, u) == ClassFor(registry, u)
  {
  }

  /** The registry after the module's own registrations. */
  function DefaultRegistry(): (r: map<string, PyClass>)
    ensures WellFormed(r)
    ensures r.Keys == {"dog", "cat"}
  {
    assert Lower("dog") == "dog";
    assert Lower("cat") == "cat";
    map["dog" := Dog, "cat" := Cat]
  }

  /** The demo's lookups: 'dog' finds `Dog`, 'cat' finds `Cat`, in any case,
      and an unregistered name such as 'bird' raises. */
  lemma DefaultLookups()
    ensures ClassFor(DefaultRegistry(), "dog") == Success(Dog)
    ensures ClassFor(DefaultRegistry(), "Cat") == Success(Cat)
    ensures ClassFor(DefaultRegistry(), "bird") == Failure(NotRegistered)
  {
  }

  /** `Animal` itself passes the `issubclass` check, so registering it
      succeeds; creating one then raises `TypeError`, because its `__init__`
      is abstract. */
  lemma RegisterAnimalBase(registry: map<string, PyClass>)
    ensures Registered(registry, "Animal", AnimalBase).Success?
    ensures ClassFor(Registered(registry, "Animal", AnimalBase).value, "animal")
         == Failure(AbstractClass(AnimalBase))
  {
    assert Lower("Animal") == "animal";
  }

  /** An instance of a registered class. `Animal.__init__` sets `name`. */
  class Animal {
    const cls: PyClass
    var name: string

    constructor (cls: PyClass, name: string)
      ensures this.cls == cls && this.name == name
    {
      this.cls := cls;
      this.name := name;
    }
  }

  /** `AnimalFactory` with its class-level `_registry`. */
  class AnimalFactory {
    var registry: map<string, PyClass>

    ghost predicate Valid()
      reads this
    {
      WellFormed(registry)
    }

    /** The registry before any registration. */
    constructor ()
      ensures Valid() && registry == map[]
    {
      registry := map[];
    }

    method Register(t: string, c: PyClass) returns (r: Outcome<FactoryError>)
      requires Valid()
      modifies this
      ensures Valid()
      ensures var step := Registered(old(registry), t, c);
        && (step.Failure? ==> r == Fail(step.error) && registry == old(registry))
        && (step.Success? ==> r == Pass && registry == step.value)
    {
      if !c.isAnimal {
        return Fail(NotAnAnimal(c));
      }
      registry := registry[Lower(t) := c];
      r := Pass;
    }

    /** Reads the registry only; on success the instance is new, of exactly
        the registered class, and carries `name`. */
    method CreateAnimal(t: string, name: string) returns (r: Result<Animal, FactoryError>)
      ensures ClassFor(registry, t).Failure? ==> r == Failure(ClassFor(registry, t).error)
      ensures ClassFor(registry, t).Success? ==>
        && r.Success? && fresh(r.value)
        && r.value.cls == ClassFor(registry, t).value
        && r.value.name == name
    {
      var key := Lower(t);
      if key !in registry {
        return Failure(NotRegistered);
      }
      var cls := registry[key];
      if cls.isAbstract {
        return Failure(AbstractClass(cls));
      }
      if cls.initRaises {
        return Failure(InitRaised(cls));
      }
      var animal := new Animal(cls, name);
      r := Success(animal);
    }
  }

  /** Module initialisation: 'dog' and 'cat' are registered to `Dog` and `Cat`. */
  method LoadModule() returns (f: AnimalFactory)
    ensures fresh(f) && f.Valid()
    ensures f.registry == DefaultRegistry()
  {
    f := new AnimalFactory();
    var _ := f.Register("dog", Dog);
    var _ := f.Register("cat", Cat);
    assert Lower("dog") == "dog";
    assert Lower("cat") == "cat";
  }

  /** The demo: `create_animal('dog', "John")` and `create_animal('cat', "Mosh")`
      after initialisation give a Dog named John and a Cat named Mosh, two
      distinct new objects. */
  method Demo() returns (dog: Animal, cat: Animal)
    ensures fresh(dog) && fresh(cat) && dog != cat
    ensures dog.cls == Dog && dog.name == "John"
    ensures cat.cls == Cat && cat.name == "Mosh"
  {
    var f := LoadModule();
    DefaultLookups();
    assert Lower("cat") == "cat";
    var r1 := f.CreateAnimal("dog", "John");
    var r2 := f.CreateAnimal("cat", "Mosh");
    dog, cat := r1.value, r2.value;
  }
}
