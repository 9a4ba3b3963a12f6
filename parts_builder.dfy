/** The part-list builder: a `Product` is a list of part names, a builder adds
    parts to its own product, and a `Director` asks a builder for part A and
    then part B.

    The source has an abstract base `Builder` whose three methods raise
    `NotImplementedError`, and a `ConcreteBuilder` that owns a `Product`. Both
    are one class here: `product` is `null` for the abstract base and the
    builder's own product otherwise. */
module PartsBuilding {
  import opened Wrappers

  /** `build_part_a`, `build_part_b` and `get_result` of the abstract base raise this. */
  datatype BuilderError = NotImplemented

  const PartA: string := "PartA"
  const PartB: string := "PartB"

  class Product {
    var parts: seq<string>

    constructor ()
      ensures parts == []
    {
      parts := [];
    }

    /** Appends `part`; the earlier parts keep their places. */
    method Add(part: string)
      modifies this
      ensures parts == old(parts) + [part]
    {
      parts := parts + [part];
    }
  }

  class Builder {
    /** `null` for the abstract base `Builder`, the product under construction
        for a `ConcreteBuilder`. */
    const product: Product?

    /** `Builder()`: the abstract base, which has no product. */
    constructor Abstract()
      ensures product == null
    {
      product := null;
    }

    /** `ConcreteBuilder()`: a builder with a new, empty product. */
    constructor Concrete()
      ensures product != null && fresh(product)
      ensures product.parts == []
    {
      product := new Product();
    }

    /** Appends exactly "PartA" to a concrete builder's product; the abstract
        base raises and changes nothing. */
    method BuildPartA() returns (r: Outcome<BuilderError>)
      modifies product
      ensures product == null ==> r == Fail(NotImplemented)
      ensures product != null ==> r == Pass && product.parts == old(product.parts) + [PartA]
    {
      if product == null {
        return Fail(NotImplemented);
      }
      product.Add(PartA);
      r := Pass;
    }

    /** Appends exactly "PartB" to a concrete builder's product; the abstract
        base raises and changes nothing. */
    method BuildPartB() returns (r: Outcome<BuilderError>)
      modifies product
      ensures product == null ==> r == Fail(NotImplemented)
      ensures product != null ==> r == Pass && product.parts == old(product.parts) + [PartB]
    {
      if product == null {
        return Fail(NotImplemented);
      }
      product.Add(PartB);
      r := Pass;
    }

    /** Returns the builder's own product object, neither copied nor changed;
        the abstract base raises. */
    method GetResult() returns (r: Result<Product, BuilderError>)
      ensures product == null ==> r == Failure(NotImplemented)
      ensures product != null ==> r == Success(product)
    {
      if product == null {
        return Failure(NotImplemented);
      }
      r := Success(product);
    }
  }

  class Director {
    const builder: Builder

    constructor (builder: Builder)
      ensures this.builder == builder
    {
      this.builder := builder;
    }

    /** Part A, then part B. On the abstract base the first call raises, the
        exception propagates and the second call never happens. */
    method Construct() returns (r: Outcome<BuilderError>)
      modifies builder.product
      ensures builder.product == null ==> r == Fail(NotImplemented)
      ensures builder.product != null ==>
        r == Pass && builder.product.parts == old(builder.product.parts) + [PartA, PartB]
    {
      r := builder.BuildPartA();
      if r.Fail? {
        return;
      }
      r := builder.BuildPartB();
    }
  }

  /** The demo sequence: a fresh concrete builder, a director over it,
      `construct`, then `get_result`, gives a product whose parts are exactly
      "PartA" then "PartB". */
  method ConstructFresh() returns (p: Product)
    ensures fresh(p)
    ensures p.parts == [PartA, PartB]
  {
    var builder := new Builder.Concrete();
    var director := new Director(builder);
    var _ := director.Construct();
    var r := builder.GetResult();
    p := r.value;
  }
}
