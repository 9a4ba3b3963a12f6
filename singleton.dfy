/** The lazy per-class singleton cache: the `Singleton` metaclass keeps one
    dictionary from class to instance, shared by every class that uses it.
    The first call of a class constructs an instance and stores it; every
    later call of that class returns the stored instance and ignores its
    arguments. The store happens only after construction returns, so a
    construction that raises leaves no entry and the next call tries again.

    Python's interception of the call by the metaclass is an explicit
    `GetInstance` here. The class's own construction (`type.__call__`) is code
    outside this model: a call says by its `raises` flag whether that
    construction raises for its arguments.

    `Apply` and `Run` give the cache's behaviour as values (an instance is
    identified by the arguments it was built from), and the lemmas about `Run`
    state the at-most-once and first-arguments-win properties over any
    sequence of calls. The class `Singleton` holds real instance objects and
    is proved to follow `Apply` call by call. */
module SingletonCache {
  import opened Wrappers

  /** A class is identified by its name. */
  type ClassName = string

  /** `*args` and `**kwargs`. */
  datatype Args = Args(positional: seq<string>, keywords: map<string, string>)

  /** One call `cls(*args, **kwargs)`; `raises` says whether the class's own
      construction raises for these arguments, were it to run. */
  datatype Call = Call(cls: ClassName, args: Args, raises: bool)

  /** The exception raised by the class's own construction, passed on. */
  datatype CallError = ConstructionFailed

  /** The cache as values: each cached class with the arguments its instance
      was built from. */
  type Cache = map<ClassName, Args>

  /** One call's result, the cache afterwards, and whether an instance was
      constructed and stored. */
  datatype StepOutcome = StepOutcome(result: Result<Args, CallError>, cache: Cache, constructed: bool)

  /** One call of a class through the metaclass. */
  function Apply(cache: Cache, c: Call): (s: StepOutcome)
    ensures c.cls in cache ==> s == StepOutcome(Success(cache[c.cls]), cache, false)
    ensures c.cls !in cache && c.raises ==> s == StepOutcome(Failure(ConstructionFailed), cache, false)
    ensures c.cls !in cache && !c.raises ==>
      && s.result == Success(c.args)
      && s.cache == cache[c.cls := c.args]
      && s.constructed
  {
    if c.cls in cache then StepOutcome(Success(cache[c.cls]), cache, false)
    else if c.raises then StepOutcome(Failure(ConstructionFailed), cache, false)
    else StepOutcome(Success(c.args), cache[c.cls := c.args], true)
  }

  /** A sequence of calls: the cache at the end, the classes constructed in
      order, and each call's result. */
  datatype Trace = Trace(cache: Cache, constructed: seq<ClassName>, results: seq<Result<Args, CallError>>)

  function Run(cache: Cache, calls: seq<Call>): (t: Trace)
    ensures |t.results| == |calls|
    decreases |calls|
  {
    if calls == [] then Trace(cache, [], [])
    else
      var s := Apply(cache, calls[0]);
      var rest := Run(s.cache, calls[1..]);
      Trace(rest.cache,
            (if s.constructed then [calls[0].cls] else []) + rest.constructed,
            [s.result] + rest.results)
  }

  /** The arguments of the first call of `k` whose construction would not
      raise, if there is one. */
  function FirstSuccess(calls: seq<Call>, k: ClassName): (first: Option<Args>)
    decreases |calls|
  {
    if calls == [] then None
    else if calls[0].cls == k && !calls[0].raises then Some(calls[0].args)
    else FirstSuccess(calls[1..], k)
  }

  /** An entry, once stored, is never replaced or removed. */
  lemma {:induction false} EntriesPersist(cache: Cache, calls: seq<Call>, k: ClassName)
    requires k in cache
    ensures k in Run(cache, calls).cache && Run(cache, calls).cache[k] == cache[k]
    decreases |calls|
  {
    if calls != [] {
      EntriesPersist(Apply(cache, calls[0]).cache, calls[1..], k);
    }
  }

  /** At most one construction per class over any sequence of calls, and none
      for a class that was already cached. */
  lemma {:induction false} AtMostOnce(cache: Cache, calls: seq<Call>, k: ClassName)
    ensures multiset(Run(cache, calls).constructed)[k] <= if k in cache then 0 else 1
    decreases |calls|
  {
    if calls != [] {
      var s := Apply(cache, calls[0]);
      AtMostOnce(s.cache, calls[1..], k);
      var rest := Run(s.cache, calls[1..]).constructed;
      var head: seq<ClassName> := if s.constructed then [calls[0].cls] else [];
      assert Run(cache, calls).constructed == head + rest;
      assert multiset(head + rest) == multiset(head) + multiset(rest);
    }
  }

  /** The first arguments win: for a class not cached at the start, the
      final entry exists exactly when some call's construction succeeded, and
      then holds the arguments of the first such call; the calls of other
      classes play no part. */
  lemma {:induction false} FirstArgumentsWin(cache: Cache, calls: seq<Call>, k: ClassName)
    requires k !in cache
    ensures k in Run(cache, calls).cache <==> FirstSuccess(calls, k).Some?
    ensures k in Run(cache, calls).cache ==> Run(cache, calls).cache[k] == FirstSuccess(calls, k).value
    decreases |calls|
  {
    if calls != [] {
      var s := Apply(cache, calls[0]);
      if calls[0].cls == k && !calls[0].raises {
        EntriesPersist(s.cache, calls[1..], k);
      } else {
        FirstArgumentsWin(s.cache, calls[1..], k);
      }
    }
  }

  /** Every successful call returns the instance that ends up cached for its
      class, so all successful calls of one class return the same instance. */
  lemma {:induction false} ResultIsCached(cache: Cache, calls: seq<Call>, i: nat)
    requires i < |calls| && Run(cache, calls).results[i].Success?
    ensures calls[i].cls in Run(cache, calls).cache
    ensures Run(cache, calls).results[i].value == Run(cache, calls).cache[calls[i].cls]
    decreases |calls|
  {
    var s := Apply(cache, calls[0]);
    if i == 0 {
      EntriesPersist(s.cache, calls[1..], calls[0].cls);
    } else {
      ResultIsCached(s.cache, calls[1..], i - 1);
    }
  }

  /** `logger1 is logger2`, for any two successful calls of the same class. */
  lemma SameInstance(cache: Cache, calls: seq<Call>, i: nat, j: nat)
    requires i < |calls| && j < |calls| && calls[i].cls == calls[j].cls
    requires Run(cache, calls).results[i].Success? && Run(cache, calls).results[j].Success?
    ensures Run(cache, calls).results[i] == Run(cache, calls).results[j]
  {
    ResultIsCached(cache, calls, i);
    ResultIsCached(cache, calls, j);
  }

  /** A construction that raises is not remembered: the next call of the same
      class constructs, with its own arguments. */
  lemma RetryAfterFailure(cache: Cache, k: ClassName, a: Args, b: Args)
    requires k !in cache
    ensures var first := Apply(cache, Call(k, a, true));
      && first.result == Failure(ConstructionFailed)
      && Apply(first.cache, Call(k, b, false)).result == Success(b)
      && Apply(first.cache, Call(k, b, false)).constructed
  {
  }

  /** The arguments each cached instance was built from. */
  ghost function ArgsOf(instances: map<ClassName, Instance>): (m: Cache)
    ensures m.Keys == instances.Keys
  {
    map k | k in instances :: instances[k].args
  }

  /** Storing one new instance adds one entry to the cache's value view. */
  lemma ArgsOfStore(instances: map<ClassName, Instance>, k: ClassName, obj: Instance)
    ensures ArgsOf(instances[k := obj]) == ArgsOf(instances)[k := obj.args]
  {
  }

  /** An instance built by the metaclass. */
  class Instance {
    const cls: ClassName
    const args: Args

    constructor (cls: ClassName, args: Args)
      ensures this.cls == cls && this.args == args
    {
      this.cls := cls;
      this.args := args;
    }
  }

  /** The metaclass with its `_instances` dictionary. `constructed` records
      every construction so far, in order. */
  class Singleton {
    var instances: map<ClassName, Instance>
    ghost var constructed: seq<ClassName>

    /** Each entry is an instance of its own class, and the classes
        constructed so far are exactly the cached ones, each once. */
    ghost predicate Valid()
      reads this
    {
      && (forall k | k in instances :: instances[k].cls == k)
      && multiset(constructed) == multiset(instances.Keys)
    }

    /** The cache as values, for comparison with `Apply`. */
    ghost function CachedArgs(): Cache
      reads this
    {
      ArgsOf(instances)
    }

    constructor ()
      ensures Valid() && instances == map[] && constructed == []
    {
      instances := map[];
      constructed := [];
    }

    /** `Singleton.__call__`. */
    method GetInstance(c: Call) returns (r: Result<Instance, CallError>)
      requires Valid()
      modifies this
      ensures Valid()
      ensures var s := Apply(old(CachedArgs()), c);
        && CachedArgs() == s.cache
        && constructed == old(constructed) + (if s.constructed then [c.cls] else [])
        && (r.Success? <==> s.result.Success?)
        && (r.Success? ==> r.value.cls == c.cls && r.value.args == s.result.value)
      ensures forall k | k in old(instances) :: k in instances && instances[k] == old(instances[k])
      ensures c.cls in old(instances) ==> r == Success(old(instances[c.cls])) && instances == old(instances)
      ensures c.cls !in old(instances) && r.Success? ==>
        fresh(r.value) && instances == old(instances)[c.cls := r.value]
      ensures c.cls !in old(instances) && r.Failure? ==> instances == old(instances)
      ensures forall k :: multiset(constructed)[k] <= 1
    {
      if c.cls !in instances {
        if c.raises {
          return Failure(ConstructionFailed);
        }
        var obj := new Instance(c.cls, c.args);
        ArgsOfStore(instances, c.cls, obj);
        assert (instances[c.cls := obj]).Keys == instances.Keys + {c.cls};
        assert multiset(instances.Keys + {c.cls}) == multiset(instances.Keys) + multiset{c.cls};
        instances := instances[c.cls := obj];
        constructed := constructed + [c.cls];
      }
      r := Success(instances[c.cls]);
    }
  }

  /** The demo: two calls `Logger()` give the same object. */
  method LoggerDemo() returns (logger1: Instance, logger2: Instance)
    ensures logger1 == logger2
  {
    var meta := new Singleton();
    var r1 := meta.GetInstance(Call("Logger", Args([], map[]), false));
    var r2 := meta.GetInstance(Call("Logger", Args([], map[]), false));
    logger1, logger2 := r1.value, r2.value;
  }
}
