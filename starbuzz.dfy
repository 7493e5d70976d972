/**
 * Starbuzz beverages: a base drink wrapped in zero or more condiment
 * decorators. Each layer is an object; a condiment owns the beverage it
 * wraps and delegates size reads and writes to it, so only the innermost
 * layer's size is ever read or written.
 *
 * Prices are exact reals (the source computes in doubles).
 */
module Starbuzz {

  /** `Beverage::Size`, with the enumerators' numeric values. */
  datatype Size = Small | Medium | Large
  {
    function Value(): int
    {
      match this
      case Small => -1
      case Medium => 0
      case Large => 1
    }
  }

  /** The four base drinks and the three condiments. */
  datatype Layer = Espresso | HouseBlend | DarkRoast | Decaf | Mocha | Soy | Whip
  {
    predicate IsCondiment()
    {
      Mocha? || Soy? || Whip?
    }

    /** The fixed part of the layer's `cost`. */
    function Price(): real
    {
      match this
      case Espresso => 1.99
      case HouseBlend => 0.89
      case DarkRoast => 0.99
      case Decaf => 1.05
      case Mocha => 0.20
      case Soy => 0.15
      case Whip => 0.10
    }

    /** How much one size step adds to the layer's cost. */
    function SizeStep(): real
    {
      if IsCondiment() then 0.05 else 0.1
    }

    /** What a condiment appends to the description of what it wraps (a base drink wraps nothing). */
    function Suffix(): string
    {
      match this
      case Mocha => ", Mocha"
      case Soy => ", Soy"
      case Whip => ", Whip"
      case _ => ""
    }
  }

  const UnknownDescription := "Unknown description"

  /** The description each base drink's constructor sets. */
  function BaseDescription(drink: Layer): string
    requires !drink.IsCondiment()
  {
    match drink
    case Espresso => "Espresso"
    case HouseBlend => "House Blend Coffee"
    case DarkRoast => "Dark Roast Coffee"
    case Decaf => "Decaf Coffee"
  }

  class Beverage {
    const layer: Layer
    const description: string
    /** The wrapped beverage of a condiment; null for a base drink. */
    const inner: Beverage?
    /** The layers of the chain from this one inwards. */
    ghost const Repr: set<Beverage>
    var size: Size

    ghost predicate Valid()
      decreases Repr
    {
      this in Repr &&
      (inner == null <==> !layer.IsCondiment()) &&
      (inner == null ==> Repr == {this}) &&
      (inner != null ==>
         inner in Repr && this !in inner.Repr && Repr == {this} + inner.Repr && inner.Valid())
    }

    /** A base drink: its description, size MEDIUM. */
    constructor Base(drink: Layer)
      requires !drink.IsCondiment()
      ensures Valid() && layer == drink && inner == null && Repr == {this}
      ensures description == BaseDescription(drink) && size == Medium
    {
      layer := drink;
      description := BaseDescription(drink);
      inner := null;
      Repr := {this};
      size := Medium;
    }

    /** A condiment wrapping `beverage`; its own description and size keep their defaults and are never read. */
    constructor Wrap(condiment: Layer, beverage: Beverage)
      requires condiment.IsCondiment() && beverage.Valid()
      ensures Valid() && layer == condiment && inner == beverage && Repr == {this} + beverage.Repr
      ensures description == UnknownDescription && size == Medium
    {
      layer := condiment;
      description := UnknownDescription;
      inner := beverage;
      Repr := {this} + beverage.Repr;
      size := Medium;
    }

    /** The base drink at the bottom of the chain. */
    function Innermost(): (b: Beverage)
      requires Valid()
      ensures b in Repr && b.Valid() && b.inner == null
      decreases Repr
    {
      if inner == null then this else inner.Innermost()
    }

    /** The condiments from the innermost outwards. */
    function Toppings(): (ts: seq<Layer>)
      requires Valid()
      ensures forall i :: 0 <= i < |ts| ==> ts[i].IsCondiment()
      decreases Repr
    {
      if inner == null then [] else inner.Toppings() + [layer]
    }

    /** The sum of the fixed prices of all layers. */
    function PriceSum(): real
      requires Valid()
      decreases Repr
    {
      if inner == null then layer.Price() else layer.Price() + inner.PriceSum()
    }

    /** `getSize`: a condiment asks the beverage it wraps. */
    function GetSize(): (sz: Size)
      requires Valid()
      reads Repr
      ensures sz == Innermost().size
      decreases Repr
    {
      if inner == null then size else inner.GetSize()
    }

    /** `getDescription`: a condiment appends its suffix to the wrapped description. */
    function GetDescription(): (d: string)
      requires Valid()
      ensures Innermost().description <= d
      decreases Repr
    {
      if inner == null then description else inner.GetDescription() + layer.Suffix()
    }

    /**
     * `cost`: price plus size step times size, plus the wrapped beverage's
     * cost. In closed form: the sum of all layer prices plus the size value
     * times 0.1 for the base drink and 0.05 per condiment.
     */
    function Cost(): (c: real)
      requires Valid()
      reads Repr
      ensures c == PriceSum() + (0.1 + 0.05 * |Toppings()| as real) * GetSize().Value() as real
      decreases Repr
    {
      if inner == null then layer.Price() + layer.SizeStep() * GetSize().Value() as real
      else layer.Price() + layer.SizeStep() * GetSize().Value() as real + inner.Cost()
    }

    /** `setSize`: a condiment passes the size on, so only the base drink's size field changes. */
    method SetSize(s: Size)
      requires Valid()
      modifies Innermost()
      ensures Innermost().size == s
      ensures forall b :: b in Repr ==> b.Valid() && b.GetSize() == s
      decreases Repr
    {
      if inner == null {
        size := s;
      } else {
        inner.SetSize(s);
      }
      EveryLayerSharesBase(this);
    }
  }

  /** Every layer of a chain is a valid chain whose base drink is the chain's. */
  lemma {:induction false} LayersShareBase(b: Beverage, x: Beverage)
    requires b.Valid() && x in b.Repr
    ensures x.Valid() && x.Repr <= b.Repr && x.Innermost() == b.Innermost()
    decreases b.Repr
  {
    if x != b {
      LayersShareBase(b.inner, x);
    }
  }

  lemma EveryLayerSharesBase(b: Beverage)
    requires b.Valid()
    ensures forall x :: x in b.Repr ==> x.Valid() && x.GetSize() == b.Innermost().size
  {
    forall x | x in b.Repr
      ensures x.Valid() && x.GetSize() == b.Innermost().size
    {
      LayersShareBase(b, x);
    }
  }

  /** The suffixes of the given condiments, in order. */
  function Suffixes(ts: seq<Layer>): string
  {
    if ts == [] then "" else Suffixes(ts[..|ts| - 1]) + ts[|ts| - 1].Suffix()
  }

  lemma SuffixesSnoc(ts: seq<Layer>, l: Layer)
    ensures Suffixes(ts + [l]) == Suffixes(ts) + l.Suffix()
  {
    assert (ts + [l])[..|ts|] == ts;
  }

  /** The description is the base drink's, then one suffix per condiment, innermost first. */
  lemma {:induction false} DescriptionListsToppings(b: Beverage)
    requires b.Valid()
    ensures b.GetDescription() == b.Innermost().description + Suffixes(b.Toppings())
    decreases b.Repr
  {
    if b.inner != null {
      var inner := b.inner;
      assert inner.Valid();
      DescriptionListsToppings(inner);
      assert b.Innermost() == inner.Innermost();
      assert b.Toppings() == inner.Toppings() + [b.layer];
      assert b.GetDescription() == inner.GetDescription() + b.layer.Suffix();
      SuffixesSnoc(inner.Toppings(), b.layer);
      var base, rest, last := inner.Innermost().description, Suffixes(inner.Toppings()), b.layer.Suffix();
      assert (base + rest) + last == base + (rest + last);
    }
  }

  // The demo driver's three beverages.

  /** A medium espresso. */
  method EspressoDemo() returns (d: string, c: real)
    ensures d == "Espresso" && c == 1.99
  {
    var espresso := new Beverage.Base(Espresso);
    espresso.SetSize(Medium);
    d, c := espresso.GetDescription(), espresso.Cost();
  }

  /** Dark roast wrapped in mocha, mocha and whip, size still MEDIUM. */
  method DarkRoastMochaMochaWhip() returns (b: Beverage)
    ensures fresh(b.Repr) && b.Valid()
    ensures b.GetDescription() == "Dark Roast Coffee" + ", Mocha" + ", Mocha" + ", Whip"
    ensures |b.Toppings()| == 3 && b.PriceSum() == 1.49
  {
    var dark := new Beverage.Base(DarkRoast);
    var mocha1 := new Beverage.Wrap(Mocha, dark);
    var mocha2 := new Beverage.Wrap(Mocha, mocha1);
    b := new Beverage.Wrap(Whip, mocha2);
    assert dark.PriceSum() == 0.99;
    assert mocha1.Toppings() == [Mocha];
    assert mocha1.PriceSum() == 0.20 + dark.PriceSum() == 1.19;
    assert mocha2.Toppings() == [Mocha, Mocha];
    assert mocha2.PriceSum() == 0.20 + mocha1.PriceSum() == 1.39;
    assert b.PriceSum() == 0.10 + mocha2.PriceSum();
    assert mocha1.GetDescription() == "Dark Roast Coffee" + ", Mocha";
    assert mocha2.GetDescription() == "Dark Roast Coffee" + ", Mocha" + ", Mocha";
  }

  /** A large dark roast with mocha, mocha and whip. */
  method DarkRoastDemo() returns (d: string, c: real)
    ensures d == "Dark Roast Coffee" + ", Mocha" + ", Mocha" + ", Whip" && c == 1.74
  {
    var whip := DarkRoastMochaMochaWhip();
    whip.SetSize(Large);
    assert whip.GetSize() == Large;
    d, c := whip.GetDescription(), whip.Cost();
  }

  /** House blend wrapped in soy, mocha and whip, size still MEDIUM. */
  method HouseBlendSoyMochaWhip() returns (b: Beverage)
    ensures fresh(b.Repr) && b.Valid()
    ensures b.GetDescription() == "House Blend Coffee" + ", Soy" + ", Mocha" + ", Whip"
    ensures |b.Toppings()| == 3 && b.PriceSum() == 1.34
  {
    var house := new Beverage.Base(HouseBlend);
    var soy := new Beverage.Wrap(Soy, house);
    var mocha := new Beverage.Wrap(Mocha, soy);
    b := new Beverage.Wrap(Whip, mocha);
    assert house.PriceSum() == 0.89;
    assert soy.Toppings() == [Soy];
    assert soy.PriceSum() == 0.15 + house.PriceSum() == 1.04;
    assert mocha.Toppings() == [Soy, Mocha];
    assert mocha.PriceSum() == 0.20 + soy.PriceSum() == 1.24;
    assert b.PriceSum() == 0.10 + mocha.PriceSum();
    assert soy.GetDescription() == "House Blend Coffee" + ", Soy";
    assert mocha.GetDescription() == "House Blend Coffee" + ", Soy" + ", Mocha";
  }

  /** A small house blend with soy, mocha and whip. */
  method HouseBlendDemo() returns (d: string, c: real)
    ensures d == "House Blend Coffee" + ", Soy" + ", Mocha" + ", Whip" && c == 1.09
  {
    var whip := HouseBlendSoyMochaWhip();
    whip.SetSize(Small);
    assert whip.GetSize() == Small;
    d, c := whip.GetDescription(), whip.Cost();
  }
}
