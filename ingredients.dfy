/**
 * The ingredients of the pizza store and the two regional ingredient
 * factories (the abstract-factory half of the pizza store).
 *
 * The source gives every ingredient a class of its own, derived from one
 * class per ingredient kind; here an ingredient is a value tagged with its
 * kind, and a factory is one of two constants whose six operations are
 * table lookups.
 */
module Ingredients {

  /** The six slot categories a pizza may hold (Dough, Sauce, Veggie, Cheese, Pepperoni, Clams). */
  datatype IngredientKind = DoughKind | SauceKind | VeggieKind | CheeseKind | PepperoniKind | ClamsKind

  /** An ingredient: its kind (the source's class hierarchy) and its name. */
  datatype Ingredient = Ingredient(kind: IngredientKind, name: string)
  {
    /** `Ingredient::toString`: the name the ingredient was built with. */
    function ToString(): string
    {
      name
    }
  }

  /** True when every element of `vs` is a veggie. */
  predicate AllVeggies(vs: seq<Ingredient>)
  {
    forall i :: 0 <= i < |vs| ==> vs[i].kind == VeggieKind
  }

  /** No ingredient name occurs twice in `vs`. */
  predicate DistinctNames(vs: seq<Ingredient>)
  {
    forall i, j :: 0 <= i < j < |vs| ==> vs[i].name != vs[j].name
  }

  /** The regional ingredient factories: New York and Chicago. */
  datatype IngredientFactory = NYFactory | ChicagoFactory
  {
    function CreateDough(): (d: Ingredient)
      ensures d.kind == DoughKind
    {
      match this
      case NYFactory => Ingredient(DoughKind, "thin crust dough")
      case ChicagoFactory => Ingredient(DoughKind, "thick crust dough")
    }

    function CreateSauce(): (s: Ingredient)
      ensures s.kind == SauceKind
    {
      match this
      case NYFactory => Ingredient(SauceKind, "marinara sauce")
      case ChicagoFactory => Ingredient(SauceKind, "plum tomato sauce")
    }

    function CreateCheese(): (c: Ingredient)
      ensures c.kind == CheeseKind
    {
      match this
      case NYFactory => Ingredient(CheeseKind, "reggiano cheese")
      case ChicagoFactory => Ingredient(CheeseKind, "mozzarella cheese")
    }

    /** The region's veggies, in the order the factory appends them. */
    function CreateVeggies(): (vs: seq<Ingredient>)
      ensures |vs| > 0 && AllVeggies(vs) && DistinctNames(vs)
    {
      match this
      case NYFactory =>
        [Ingredient(VeggieKind, "garlic"), Ingredient(VeggieKind, "onion"),
         Ingredient(VeggieKind, "mushroom"), Ingredient(VeggieKind, "red pepper")]
      case ChicagoFactory =>
        [Ingredient(VeggieKind, "black olives"), Ingredient(VeggieKind, "egg plant"),
         Ingredient(VeggieKind, "spinach")]
    }

    function CreatePepperoni(): (p: Ingredient)
      ensures p.kind == PepperoniKind
    {
      Ingredient(PepperoniKind, "sliced pepperoni")
    }

    function CreateClams(): (c: Ingredient)
      ensures c.kind == ClamsKind
    {
      match this
      case NYFactory => Ingredient(ClamsKind, "fresh clams")
      case ChicagoFactory => Ingredient(ClamsKind, "frozen clams")
    }
  }

  /** The two regions differ in every single-ingredient product except the pepperoni. */
  lemma RegionalVariation()
    ensures NYFactory.CreateDough().name != ChicagoFactory.CreateDough().name
    ensures NYFactory.CreateSauce().name != ChicagoFactory.CreateSauce().name
    ensures NYFactory.CreateCheese().name != ChicagoFactory.CreateCheese().name
    ensures NYFactory.CreateClams().name != ChicagoFactory.CreateClams().name
    ensures NYFactory.CreatePepperoni() == ChicagoFactory.CreatePepperoni()
  {
  }

  /** The two regions' veggie lists have no veggie in common; New York has four, Chicago three. */
  lemma VeggiesDisjoint(i: nat, j: nat)
    requires i < |NYFactory.CreateVeggies()| && j < |ChicagoFactory.CreateVeggies()|
    ensures |NYFactory.CreateVeggies()| == 4 && |ChicagoFactory.CreateVeggies()| == 3
    ensures NYFactory.CreateVeggies()[i].name != ChicagoFactory.CreateVeggies()[j].name
  {
  }
}
