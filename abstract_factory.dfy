/** The generic abstract factory: two concrete factories, each making one
    product A and one product B of its own variant. Factories and products
    hold no state, so each is a value and each operation a function. */
module ProductFamilies {

  datatype Variant = Variant1 | Variant2

  datatype Factory = ConcreteFactory1 | ConcreteFactory2
  datatype ProductA = ConcreteProductA1 | ConcreteProductA2
  datatype ProductB = ConcreteProductB1 | ConcreteProductB2

  function FactoryVariant(f: Factory): (v: Variant)
  {
    match f
    case ConcreteFactory1 => Variant1
    case ConcreteFactory2 => Variant2
  }

  function VariantOfA(p: ProductA): (v: Variant)
  {
    match p
    case ConcreteProductA1 => Variant1
    case ConcreteProductA2 => Variant2
  }

  function VariantOfB(p: ProductB): (v: Variant)
  {
    match p
    case ConcreteProductB1 => Variant1
    case ConcreteProductB2 => Variant2
  }

  /** The class name of a product, as the source spells it. */
  function NameOfA(p: ProductA): (name: string)
  {
    match p
    case ConcreteProductA1 => "ConcreteProductA1"
    case ConcreteProductA2 => "ConcreteProductA2"
  }

  function NameOfB(p: ProductB): (name: string)
  {
    match p
    case ConcreteProductB1 => "ConcreteProductB1"
    case ConcreteProductB2 => "ConcreteProductB2"
  }

  /** `create_product_a`: a product A of the factory's own variant. */
  function CreateProductA(f: Factory): (p: ProductA)
    ensures VariantOfA(p) == FactoryVariant(f)
  {
    match f
    case ConcreteFactory1 => ConcreteProductA1
    case ConcreteFactory2 => ConcreteProductA2
  }

  /** `create_product_b`: a product B of the factory's own variant. */
  function CreateProductB(f: Factory): (p: ProductB)
    ensures VariantOfB(p) == FactoryVariant(f)
  {
    match f
    case ConcreteFactory1 => ConcreteProductB1
    case ConcreteFactory2 => ConcreteProductB2
  }

  /** `operation_a`: "Result of " followed by the product's class name. */
  function OperationA(p: ProductA): (s: string)
    ensures s == "Result of " + NameOfA(p)
  {
    match p
    case ConcreteProductA1 => "Result of ConcreteProductA1"
    case ConcreteProductA2 => "Result of ConcreteProductA2"
  }

  /** `operation_b`: "Result of " followed by the product's class name. */
  function OperationB(p: ProductB): (s: string)
    ensures s == "Result of " + NameOfB(p)
  {
    match p
    case ConcreteProductB1 => "Result of ConcreteProductB1"
    case ConcreteProductB2 => "Result of ConcreteProductB2"
  }

  /** Family consistency: the two products of one factory share its variant. */
  lemma FamilyConsistent(f: Factory)
    ensures VariantOfA(CreateProductA(f)) == VariantOfB(CreateProductB(f)) == FactoryVariant(f)
  {
  }

  /** A product's result string tells which product it is, so the two
      factories' products behave differently. */
  lemma OperationsDistinguish(p: ProductA, q: ProductA, u: ProductB, v: ProductB)
    ensures OperationA(p) == OperationA(q) <==> p == q
    ensures OperationB(u) == OperationB(v) <==> u == v
  {
  }
}
