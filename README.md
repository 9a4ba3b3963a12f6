# Creational patterns, modelled in Dafny

This project models the sequential logic of a small Python collection of
object-creation pattern examples, and proves what each example promises:

- **HTTP request builder** (`creational/builder/example.py`), module
  `RequestBuilding`. A `RequestBuilder` object accumulates a method, an
  endpoint, a header map and a payload map. Its setters return the builder
  itself. `Build` refuses to run without a non-empty endpoint. On success it
  returns a `Request` and resets the builder. A `Director` runs a fixed GET
  recipe and a fixed POST recipe. The builder's fields, read together as a
  `Draft` value, are specified by pure transition functions (`WithMethod`,
  `WithEndpoint`, `WithHeaders`, `WithPayload`, `Finish`). Every method of the
  class is proved to change its fields exactly as its function says. The
  Python field `method` is called `httpMethod` here, because `method` is a
  Dafny keyword.
- **Part-list builder** (`creational/builder/builder.py`), module
  `PartsBuilding`. A `Product` is a list of part names. A concrete builder
  appends "PartA" and "PartB" to its own product, and `Director.Construct`
  asks for both, in that order. The abstract base `Builder` and
  `ConcreteBuilder` are one Dafny class whose `product` is `null` for the
  abstract base. On the abstract base every method raises `NotImplementedError`.
- **Animal factory** (`creational/factory/animal_factory.py`), module
  `AnimalRegistry`. A registry maps lower-cased type names to classes.
  `Register` admits only subclasses of `Animal` and lets the last
  registration of a name win. `CreateAnimal` looks the name up without regard
  to case and builds a new instance of the class it finds, with the given
  name. A Python class is a `PyClass` value that records its name, whether
  `issubclass(c, Animal)` holds, whether it still has an abstract method, and
  whether its own `__init__` raises when called with a name.
- **Lazy singleton cache** (`creational/singleton/non_thread_safe.py`),
  module `SingletonCache`. The metaclass's interception of a class call is an
  explicit `GetInstance`. The first call of a class constructs and stores an
  instance. Later calls return the stored one and ignore their arguments. A
  construction that raises stores nothing. The pure functions `Apply` and
  `Run` describe the cache over any sequence of calls. The lemmas about `Run`
  prove at most one construction per class, entries that are never replaced,
  and that the first successful call's arguments win.
- **Abstract factories** (`creational/abstract_factory/abstract_factory.py`
  and `creational/abstract_factory/example.py`), modules `ProductFamilies`
  and `Furniture`. Factories and products hold no state, so they are values
  and their methods are functions. Being functions, repeated calls always give
  products that behave the same way. Each factory is proved to make products
  of its own variant only.

Some behaviour follows the code rather than a general registry design:

- `create_animal` raises `NotImplementedError` for an unknown name, and that
  error carries no key (the source's message formats the `None` it found).
- Registering `Animal` itself passes the `issubclass` check. A later
  `create_animal` for it raises `TypeError`, because `Animal.__init__` is
  abstract. This is the `AbstractClass` error (lemma `RegisterAnimalBase`).
- `create_animal` runs the registered class's own `__init__`. When that
  raises, `create_animal` raises too. This is the `InitRaised` error.
- The singleton has no lock and no double check, because `non_thread_safe.py`
  has none.
- A failed construction leaves the cache unchanged, since the dictionary
  store happens only after the constructor returns.
- A built `Request` may carry no method (`None`) when `set_method` was never
  called, even though the dataclass annotates the field as `str`.

## Model

| member | source | states |
|---|---|---|
| RequestBuilding.EmptyDraft | creational/builder/example.py:31-35 | a new or reset builder has no method, no endpoint, and empty header and payload maps |
| RequestBuilding.MethodOrGet | creational/builder/example.py:37-39 | the stored method is never empty; it is the given method when that is non-empty, and "GET" for `None` or `""` |
| RequestBuilding.Updated | creational/builder/example.py:47-54 | `dict.update`: keys of the update take its values, other existing keys keep theirs, no other key appears |
| RequestBuilding.WithMethod | creational/builder/example.py:37-40 | `set_method` stores a non-empty method (the argument, or "GET") and leaves endpoint, headers and payload unchanged |
| RequestBuilding.WithEndpoint | creational/builder/example.py:42-45 | `set_endpoint` stores the endpoint and leaves the other three fields unchanged |
| RequestBuilding.WithHeaders | creational/builder/example.py:47-50 | `set_headers` merges the given headers over the old ones and leaves the other three fields unchanged |
| RequestBuilding.WithPayload | creational/builder/example.py:52-55 | `set_payload` merges the given payload over the old one and leaves the other three fields unchanged |
| RequestBuilding.Finish | creational/builder/example.py:57-68 | `build` fails exactly when the endpoint is `None` or empty, and then leaves the state unchanged; on success the request carries the accumulated method, endpoint, headers and payload, and the builder is reset |
| RequestBuilding.HeaderUpdatesAccumulate | creational/builder/example.py:47-50 | two `set_headers` calls equal one call with the second map merged over the first |
| RequestBuilding.BuildTwiceFails | creational/builder/example.py:57-68 | after a successful build, an immediate second build fails, because the reset cleared the endpoint |
| RequestBuilding.GetRecipe | creational/builder/example.py:75-76 | `get_request(e)` on any builder builds GET with the accumulated headers and payload, or fails for empty `e` and leaves GET and "" set |
| RequestBuilding.GetFromEmpty | creational/builder/example.py:75-76 | `get_request(e)` on a reset builder yields `Request("GET", e, {}, {})` |
| RequestBuilding.PostRecipe | creational/builder/example.py:78-79 | `post_request(e, h, p)` on any builder builds POST with `h` and `p` merged into the accumulated maps, or fails for empty `e` |
| RequestBuilding.PostFromEmpty | creational/builder/example.py:78-79 | `post_request(e, h, p)` on a reset builder yields `Request("POST", e, h, p)` |
| RequestBuilding.RequestBuilder.constructor | creational/builder/example.py:28-29 | a new builder is in the reset state |
| RequestBuilding.RequestBuilder.Reset | creational/builder/example.py:31-35 | `reset` puts all four fields back to the reset state |
| RequestBuilding.RequestBuilder.SetMethod | creational/builder/example.py:37-40 | returns the same builder; its fields move as `WithMethod` says |
| RequestBuilding.RequestBuilder.SetEndpoint | creational/builder/example.py:42-45 | returns the same builder; its fields move as `WithEndpoint` says |
| RequestBuilding.RequestBuilder.SetHeaders | creational/builder/example.py:47-50 | returns the same builder; its fields move as `WithHeaders` says |
| RequestBuilding.RequestBuilder.SetPayload | creational/builder/example.py:52-55 | returns the same builder; its fields move as `WithPayload` says |
| RequestBuilding.RequestBuilder.Build | creational/builder/example.py:57-68 | returns the result of `Finish` on the old fields and leaves the fields `Finish` gives (unchanged on failure, reset on success) |
| RequestBuilding.Director.constructor | creational/builder/example.py:72-73 | the director drives the builder it was given |
| RequestBuilding.Director.GetRequest | creational/builder/example.py:75-76 | set method GET, set endpoint, build: result and builder state as the composed transition functions give them |
| RequestBuilding.Director.PostRequest | creational/builder/example.py:78-79 | set method POST, endpoint, headers, payload, build: result and builder state as the composed transition functions give them |
| PartsBuilding.Product.constructor | creational/builder/builder.py:18-20 | a new product has no parts |
| PartsBuilding.Product.Add | creational/builder/builder.py:22-28 | `add(p)` appends `p` at the end; earlier parts are unchanged |
| PartsBuilding.Builder.Abstract | creational/builder/builder.py:35-50 | the abstract base builder owns no product, so its methods raise |
| PartsBuilding.Builder.Concrete | creational/builder/builder.py:54-56 | a concrete builder owns a new, empty product |
| PartsBuilding.Builder.BuildPartA | creational/builder/builder.py:58-60 | appends exactly "PartA" to the builder's product; the abstract base raises `NotImplementedError` and changes nothing |
| PartsBuilding.Builder.BuildPartB | creational/builder/builder.py:62-64 | appends exactly "PartB" to the builder's product; the abstract base raises `NotImplementedError` and changes nothing |
| PartsBuilding.Builder.GetResult | creational/builder/builder.py:66-72 | returns the builder's own product object, not a copy; the abstract base raises `NotImplementedError` |
| PartsBuilding.Director.constructor | creational/builder/builder.py:76-82 | the director drives the builder it was given |
| PartsBuilding.Director.Construct | creational/builder/builder.py:84-87 | appends "PartA" then "PartB"; on the abstract base the first call raises and the second never runs |
| PartsBuilding.ConstructFresh | creational/builder/builder.py:90-101 | a fresh concrete builder, constructed by a director, yields parts exactly ["PartA", "PartB"] |
| AnimalRegistry.LowerChar | creational/factory/animal_factory.py:76 | ASCII lower-casing of one character: the result is never an A-Z letter, A-Z is shifted to a-z, and every other character is kept |
| AnimalRegistry.Lower | creational/factory/animal_factory.py:76 | ASCII lower-casing of a name: the length is kept and each character is lower-cased by `LowerChar` |
| AnimalRegistry.LowerIdempotent | creational/factory/animal_factory.py:93 | lower-casing a lower-cased name changes nothing |
| AnimalRegistry.Registered | creational/factory/animal_factory.py:74-76 | `register` fails exactly for a class that is not an `Animal` subclass; otherwise it binds `lower(t)` to the class, replacing any earlier binding, and keeps every other key |
| AnimalRegistry.RegisteredWellFormed | creational/factory/animal_factory.py:74-76 | registration keeps every key lower-case and every registered class an `Animal` subclass |
| AnimalRegistry.ClassFor | creational/factory/animal_factory.py:93-96 | `create_animal` instantiates exactly the class registered under `lower(t)`; it fails with `NotImplementedError` for an unregistered name, with `TypeError` for an abstract class, and with the exception of the class's own `__init__` when that raises |
| AnimalRegistry.CaseInsensitive | creational/factory/animal_factory.py:93 | `t` and `lower(t)` find the same class or the same error |
| AnimalRegistry.CreatesAnimals | creational/factory/animal_factory.py:74-96 | on a well-formed registry every class instantiated is an `Animal` subclass |
| AnimalRegistry.RegisterThenCreate | creational/factory/animal_factory.py:63-96 | after `register(t, c)` of a concrete class whose `__init__` does not raise, every name equal to `t` up to case finds `c`, and every other name finds what it found before |
| AnimalRegistry.RegisterAnimalBase | creational/factory/animal_factory.py:74-96 | registering `Animal` itself succeeds, and creating one afterwards raises `TypeError` for the abstract class |
| AnimalRegistry.DefaultRegistry | creational/factory/animal_factory.py:99-101 | the module's registrations give exactly the keys 'dog' and 'cat', and the registry is well-formed |
| AnimalRegistry.DefaultLookups | creational/factory/animal_factory.py:103-106 | 'dog' finds `Dog`, 'Cat' finds `Cat`, and the unregistered 'bird' fails |
| AnimalRegistry.Animal.constructor | creational/factory/animal_factory.py:13-20 | a new animal has its class and the given name |
| AnimalRegistry.AnimalFactory.constructor | creational/factory/animal_factory.py:60 | the registry starts empty |
| AnimalRegistry.AnimalFactory.Register | creational/factory/animal_factory.py:62-76 | error and unchanged registry for a non-`Animal` class; otherwise the registry becomes what `Registered` gives; the invariant is kept |
| AnimalRegistry.AnimalFactory.CreateAnimal | creational/factory/animal_factory.py:78-96 | reads the registry only; fails as `ClassFor` says (unknown name, abstract class, raising `__init__`), or returns a new object of exactly the registered class whose name is the given name |
| AnimalRegistry.LoadModule | creational/factory/animal_factory.py:99-101 | after the module's registrations the registry maps 'dog' to `Dog` and 'cat' to `Cat` |
| AnimalRegistry.Demo | creational/factory/animal_factory.py:103-110 | `create_animal('dog', "John")` and `create_animal('cat', "Mosh")` give two distinct new objects, a Dog named John and a Cat named Mosh |
| SingletonCache.Apply | creational/singleton/non_thread_safe.py:11-14 | a cached class gets its stored instance and its arguments are ignored; otherwise the class is constructed with the call's arguments and stored, or the construction raises and nothing is stored |
| SingletonCache.Run | creational/singleton/non_thread_safe.py:11-14 | a sequence of calls yields one result per call |
| SingletonCache.EntriesPersist | creational/singleton/non_thread_safe.py:12-13 | a cached entry is never replaced or removed by later calls |
| SingletonCache.AtMostOnce | creational/singleton/non_thread_safe.py:12-13 | over any sequence of calls each class is constructed at most once, and not at all if it was already cached |
| SingletonCache.FirstArgumentsWin | creational/singleton/non_thread_safe.py:11-14 | a class ends up cached exactly when one of its calls constructed successfully, and holds the first such call's arguments; other classes' calls play no part |
| SingletonCache.ResultIsCached | creational/singleton/non_thread_safe.py:12-14 | every successful call returns the instance that ends up cached for its class |
| SingletonCache.SameInstance | creational/singleton/non_thread_safe.py:24-30 | any two successful calls of the same class return the same instance (`logger1 is logger2`) |
| SingletonCache.RetryAfterFailure | creational/singleton/non_thread_safe.py:13 | a construction that raises is not remembered; the next call constructs with its own arguments |
| SingletonCache.Instance.constructor | creational/singleton/non_thread_safe.py:13 | an instance records its class and the arguments it was built from |
| SingletonCache.Singleton.constructor | creational/singleton/non_thread_safe.py:9 | the instance dictionary starts empty and nothing has been constructed |
| SingletonCache.Singleton.GetInstance | creational/singleton/non_thread_safe.py:11-14 | the cache moves as `Apply` says; stored instance objects keep their identity; a hit returns the stored object; a successful miss stores one new object; every class is constructed at most once |
| SingletonCache.LoggerDemo | creational/singleton/non_thread_safe.py:23-30 | two `Logger()` calls return the same object |
| ProductFamilies.CreateProductA | creational/abstract_factory/abstract_factory.py:46-59 | each factory's product A is of the factory's own variant (factory 1 makes A1, factory 2 makes A2) |
| ProductFamilies.CreateProductB | creational/abstract_factory/abstract_factory.py:46-59 | each factory's product B is of the factory's own variant (factory 1 makes B1, factory 2 makes B2) |
| ProductFamilies.OperationA | creational/abstract_factory/abstract_factory.py:10-17 | `operation_a` returns "Result of " followed by the product's class name |
| ProductFamilies.OperationB | creational/abstract_factory/abstract_factory.py:26-33 | `operation_b` returns "Result of " followed by the product's class name |
| ProductFamilies.FamilyConsistent | creational/abstract_factory/abstract_factory.py:46-59 | products A and B of one factory belong to the same variant |
| ProductFamilies.OperationsDistinguish | creational/abstract_factory/abstract_factory.py:10-33 | two products give the same result string exactly when they are the same product |
| Furniture.CreateChair | creational/abstract_factory/example.py:66-79 | each furniture factory's chair is of the factory's own style |
| Furniture.CreateSofa | creational/abstract_factory/example.py:66-79 | each furniture factory's sofa is of the factory's own style |
| Furniture.ChairHasLegs | creational/abstract_factory/example.py:14-24 | a chair's `has_legs` names its own style and reports 4 legs |
| Furniture.SitOn | creational/abstract_factory/example.py:18-27 | a chair's `sit_on` names its own style |
| Furniture.SofaHasLegs | creational/abstract_factory/example.py:40-50 | a sofa's `has_legs` names its own style and reports 4 legs |
| Furniture.LieOn | creational/abstract_factory/example.py:44-53 | a sofa's `lie_on` names its own style |
| Furniture.NeverMixesStyles | creational/abstract_factory/example.py:66-79 | a furniture factory's chair and sofa are of the same style, the factory's |
| Furniture.AllHaveFourLegs | creational/abstract_factory/example.py:14-53 | all four products' `has_legs` strings end in " has 4 legs." |

## Left out

- `creational/singleton/thread_safe.py` is not part of this model. It exists to show mutual exclusion with a lock, which is concurrency. It also fails as written: it reads `_instances` but defines only `_instance`. The sequential keyed cache is modelled from `non_thread_safe.py`.
- Console output is not modelled: `print`, `Product.show`, both `client_code` functions, `Logger.log` and the `__main__` blocks. The demos' object-building steps are modelled as `ConstructFresh`, `Demo` and `LoggerDemo`.
- The text of exception messages is not modelled. Errors are values that say only which exception is raised.
- AnimalRegistry.Lower: lower-cases only the ASCII letters A-Z and always keeps the length. Python's `str.lower` also folds other Unicode letters (`'Ä'` becomes `'ä'`) and can change the length (`'İ'` becomes two code points).
- AnimalRegistry.LowerChar: folds only A-Z and keeps every other character, whereas Python's `str.lower` also folds other cased letters.
- AnimalRegistry.AnimalFactory.CreateAnimal: a registered class's own `__init__` is outside this model. A class flagged as not raising is assumed to initialise like `Dog` and `Cat`: it calls `Animal.__init__(name)` and stores exactly the given name. An `__init__` that takes other arguments or stores a different name is not modelled.
- `AnimalFactory._registry` is one dictionary on the class, shared by every use of `AnimalFactory`. In the model it is one `AnimalFactory` object, and its constructor stands for the class definition with its empty dictionary. Creating a second `AnimalFactory` object has no counterpart in the source.
- `issubclass` on something that is not a class raises `TypeError` in Python. `Register` takes only class values, so that path is not modelled.
- Whether a class's own construction raises is code outside this model. Each singleton call carries it as an input flag.
- SingletonCache.AtMostOnce, SingletonCache.EntriesPersist: calls are taken one at a time. A class's construction is assumed not to call back into any class managed by the metaclass. The source gives neither guarantee. If a class's `__init__` calls the same class again, the inner call misses the cache, constructs and stores. The outer call then constructs too and replaces that entry (lines 12-13 of `non_thread_safe.py`). Two threads that interleave between the membership test and the store do the same; the file calls itself thread-unsafe. In those cases a class is constructed twice and a stored entry is replaced, which these lemmas and `Singleton.GetInstance` do not describe.
- The metaclass's `_instances` is one dictionary shared by every class that uses `Singleton`. In the model it is one `Singleton` object, and `LoggerDemo` creates it in place of the metaclass definition. A second `Singleton` object has no counterpart in the source.
- Python keys `_instances` by the class object. A `ClassName` stands for that identity: two distinct classes that share a `__name__` are not modelled.
- Python dict identity is not modelled. Whether a built `Request` shares its dict objects with the builder has no counterpart, because Dafny maps are values.
- Metaclass interception, `ABC` and `abstractmethod` are Python machinery and are not modelled as such. Their effects are explicit: `GetInstance` is called directly, an abstract class is a flag on `PyClass`, and the abstract base builder is a builder without a product.
