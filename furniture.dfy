/** The furniture abstract factory: a Victorian and a Modern factory, each
    making a chair and a sofa of its own style. Factories and products hold no
    state, so each is a value and each method a function. */
module Furniture {

  datatype Style = Victorian | Modern

  datatype FurnitureFactory = VictorianFurnitureFactory | ModernFurnitureFactory
  datatype Chair = VictorianChair | ModernChair
  datatype Sofa = VictorianSofa | ModernSofa

  /** The word the products' strings use for a style. */
  function StyleName(s: Style): (name: string)
  {
    match s
    case Victorian => "Victorian"
    case Modern => "Modern"
  }

  function FactoryStyle(f: FurnitureFactory): (style: Style)
  {
    match f
    case VictorianFurnitureFactory => Victorian
    case ModernFurnitureFactory => Modern
  }

  function ChairStyle(c: Chair): (style: Style)
  {
    match c
    case VictorianChair => Victorian
    case ModernChair => Modern
  }

  function SofaStyle(s: Sofa): (style: Style)
  {
    match s
    case VictorianSofa => Victorian
    case ModernSofa => Modern
  }

  /** `create_chair`: a chair of the factory's own style. */
  function CreateChair(f: FurnitureFactory): (c: Chair)
    ensures ChairStyle(c) == FactoryStyle(f)
  {
    match f
    case VictorianFurnitureFactory => VictorianChair
    case ModernFurnitureFactory => ModernChair
  }

  /** `create_sofa`: a sofa of the factory's own style. */
  function CreateSofa(f: FurnitureFactory): (s: Sofa)
    ensures SofaStyle(s) == FactoryStyle(f)
  {
    match f
    case VictorianFurnitureFactory => VictorianSofa
    case ModernFurnitureFactory => ModernSofa
  }

  /** The fixed ending of every `has_legs` string. */
  const FourLegs: string := " has 4 legs."

  /** `Chair.has_legs`: names the chair's own style and reports 4 legs. */
  function ChairHasLegs(c: Chair): (r: string)
    ensures r == StyleName(ChairStyle(c)) + " Chair" + FourLegs
  {
    match c
    case VictorianChair => "Victorian Chair has 4 legs."
    case ModernChair => "Modern Chair has 4 legs."
  }

  /** `Chair.sit_on`: names the chair's own style. */
  function SitOn(c: Chair): (r: string)
    ensures r == "Sitting on a " + StyleName(ChairStyle(c)) + " Chair."
  {
    match c
    case VictorianChair => "Sitting on a Victorian Chair."
    case ModernChair => "Sitting on a Modern Chair."
  }

  /** `Sofa.has_legs`: names the sofa's own style and reports 4 legs. */
  function SofaHasLegs(s: Sofa): (r: string)
    ensures r == StyleName(SofaStyle(s)) + " Sofa" + FourLegs
  {
    match s
    case VictorianSofa => "Victorian Sofa has 4 legs."
    case ModernSofa => "Modern Sofa has 4 legs."
  }

  /** `Sofa.lie_on`: names the sofa's own style. */
  function LieOn(s: Sofa): (r: string)
    ensures r == "Lying on a " + StyleName(SofaStyle(s)) + " Sofa."
  {
    match s
    case VictorianSofa => "Lying on a Victorian Sofa."
    case ModernSofa => "Lying on a Modern Sofa."
  }

  /** Family consistency: a factory never mixes styles. */
  lemma NeverMixesStyles(f: FurnitureFactory)
    ensures ChairStyle(CreateChair(f)) == SofaStyle(CreateSofa(f)) == FactoryStyle(f)
  {
  }

  /** Every product's `has_legs` string ends in " has 4 legs.". */
  lemma AllHaveFourLegs(c: Chair, s: Sofa)
    ensures var r := ChairHasLegs(c); |r| >= |FourLegs| && r[|r| - |FourLegs|..] == FourLegs
    ensures var r := SofaHasLegs(s); |r| >= |FourLegs| && r[|r| - |FourLegs|..] == FourLegs
  {
  }
}
