/**
 * The two pizza stores: `createPizza` turns a type string into a named
 * pizza built with the store's regional factory, and the template method
 * `orderPizza` runs prepare, bake, cut and box on it.
 *
 * Console output is modelled as the returned lines, in order.
 */
module PizzaStores {
  import opened Ingredients
  import opened Pizzas

  datatype PizzaStore = NYPizzaStore | ChicagoPizzaStore
  {
    /** The ingredient factory `createPizza` hands to every pizza of this store. */
    function Factory(): IngredientFactory
    {
      match this
      case NYPizzaStore => NYFactory
      case ChicagoPizzaStore => ChicagoFactory
    }

    /** The prefix of every pizza name of this store. */
    function Style(): string
    {
      match this
      case NYPizzaStore => "New York Style"
      case ChicagoPizzaStore => "Chicago Style"
    }
  }

  /** The type strings `createPizza` recognises, in the order it tests them. */
  function ParseType(t: string): Option<PizzaKind>
  {
    if t == "cheese" then Some(CheesePizza)
    else if t == "veggie" then Some(VeggiePizza)
    else if t == "clam" then Some(ClamPizza)
    else if t == "pepperoni" then Some(PepperoniPizza)
    else None
  }

  /** The type string that selects each kind. */
  function TypeName(k: PizzaKind): string
  {
    match k
    case CheesePizza => "cheese"
    case VeggiePizza => "veggie"
    case ClamPizza => "clam"
    case PepperoniPizza => "pepperoni"
  }

  /** The kind's word in a pizza name. */
  function KindLabel(k: PizzaKind): string
  {
    match k
    case CheesePizza => "Cheese"
    case VeggiePizza => "Veggie"
    case ClamPizza => "Clam"
    case PepperoniPizza => "Pepperoni"
  }

  /** The name `createPizza` gives a pizza: "<store style> <Kind> Pizza". */
  function PizzaName(store: PizzaStore, k: PizzaKind): string
  {
    (store.Style() + " ") + (KindLabel(k) + " Pizza")
  }

  /** `createPizza` recognises exactly one string per kind: the kind's type name. */
  lemma ParseTypeExactly(t: string, k: PizzaKind)
    ensures ParseType(t) == Some(k) <==> t == TypeName(k)
  {
  }

  /** Every string other than the four type names yields no pizza. */
  lemma ParseTypeUnknown(t: string)
    ensures ParseType(t).None? <==> t !in {"cheese", "veggie", "clam", "pepperoni"}
  {
  }

  /** A pizza name starts with its store's style. */
  lemma NameStartsWithStyle(store: PizzaStore, k: PizzaKind)
    ensures store.Style() <= PizzaName(store, k)
  {
  }

  /** The words after the style differ for different kinds, in their first or second letter. */
  lemma KindWordsDiffer(k1: PizzaKind, k2: PizzaKind)
    requires k1 != k2
    ensures KindLabel(k1) + " Pizza" != KindLabel(k2) + " Pizza"
  {
    var w1, w2 := KindLabel(k1) + " Pizza", KindLabel(k2) + " Pizza";
    assert w1[0] == KindLabel(k1)[0] && w1[1] == KindLabel(k1)[1];
    assert w2[0] == KindLabel(k2)[0] && w2[1] == KindLabel(k2)[1];
  }

  /** No two (store, kind) pairs produce the same pizza name. */
  lemma PizzaNamesDistinct(s1: PizzaStore, k1: PizzaKind, s2: PizzaStore, k2: PizzaKind)
    requires (s1, k1) != (s2, k2)
    ensures PizzaName(s1, k1) != PizzaName(s2, k2)
  {
    if s1 != s2 {
      NameStartsWithStyle(s1, k1);
      NameStartsWithStyle(s2, k2);
      assert PizzaName(s1, k1)[0] == s1.Style()[0] != s2.Style()[0] == PizzaName(s2, k2)[0];
    } else {
      SameStoreNamesDiffer(s1, k1, k2);
    }
  }

  /** Within one store, the kind word tells the names apart. */
  lemma SameStoreNamesDiffer(store: PizzaStore, k1: PizzaKind, k2: PizzaKind)
    requires k1 != k2
    ensures PizzaName(store, k1) != PizzaName(store, k2)
  {
    KindWordsDiffer(k1, k2);
    PrefixKeepsDifference(store.Style() + " ", KindLabel(k1) + " Pizza", KindLabel(k2) + " Pizza");
  }

  /** Two different strings stay different behind a common prefix. */
  lemma PrefixKeepsDifference(p: string, a: string, b: string)
    requires a != b
    ensures p + a != p + b
  {
    assert (p + a)[|p|..] == a && (p + b)[|p|..] == b;
  }

  /**
   * `createPizza`: a fresh, unprepared, named pizza of the recognised kind
   * built with the store's factory, or null for an unrecognised type.
   */
  method CreatePizza(store: PizzaStore, t: string) returns (pizza: Pizza?)
    ensures pizza == null <==> ParseType(t).None?
    ensures pizza != null ==>
              fresh(pizza) && pizza.Valid() &&
              pizza.kind == ParseType(t).value && pizza.factory == store.Factory() &&
              pizza.name == PizzaName(store, pizza.kind) && pizza.Contents() == NoSlots
  {
    pizza := null;
    var factory := store.Factory();
    if t == "cheese" {
      pizza := new Pizza(CheesePizza, factory);
      pizza.SetName(PizzaName(store, CheesePizza));
    } else if t == "veggie" {
      pizza := new Pizza(VeggiePizza, factory);
      pizza.SetName(PizzaName(store, VeggiePizza));
    } else if t == "clam" {
      pizza := new Pizza(ClamPizza, factory);
      pizza.SetName(PizzaName(store, ClamPizza));
    } else if t == "pepperoni" {
      pizza := new Pizza(PepperoniPizza, factory);
      pizza.SetName(PizzaName(store, PepperoniPizza));
    }
  }

  /**
   * `orderPizza`: create, then prepare, bake, cut and box, in that order.
   * The source dereferences the null pointer an unrecognised type yields,
   * so a recognised type is required.
   */
  method OrderPizza(store: PizzaStore, t: string) returns (pizza: Pizza, lines: seq<string>)
    requires ParseType(t).Some?
    ensures fresh(pizza) && pizza.Valid()
    ensures pizza.kind == ParseType(t).value && pizza.name == PizzaName(store, pizza.kind)
    ensures pizza.Contents() == Prepared(pizza.kind, store.Factory(), NoSlots)
    ensures Populated(pizza.Contents()) == Required(pizza.kind)
    ensures lines == ["Preparing " + pizza.name, BakeLine, CutLine, BoxLine]
  {
    var created := CreatePizza(store, t);
    pizza := created;
    var prepared := pizza.Prepare();
    var baked := pizza.Bake();
    var cut := pizza.Cut();
    var boxed := pizza.Box();
    lines := [prepared, baked, cut, boxed];
    PreparedExactly(pizza.kind, store.Factory());
  }

  /** The names the demo driver's three pizzas get. */
  lemma DemoNames()
    ensures PizzaName(NYPizzaStore, CheesePizza) == "New York Style Cheese Pizza"
    ensures PizzaName(NYPizzaStore, VeggiePizza) == "New York Style Veggie Pizza"
    ensures PizzaName(ChicagoPizzaStore, ClamPizza) == "Chicago Style Clam Pizza"
  {
  }

  /** The New York veggie list as `toString` prints it. */
  lemma NYVeggieList()
    ensures VeggieList(NYFactory.CreateVeggies()) == ", garlic, onion, mushroom, red pepper"
  {
    var vs := NYFactory.CreateVeggies();
    assert vs[..1][..0] == [];
    assert VeggieList(vs[..1]) == ", garlic";
    assert vs[..2][..1] == vs[..1];
    assert VeggieList(vs[..2]) == ", garlic, onion";
    assert vs[..3][..2] == vs[..2];
    assert VeggieList(vs[..3]) == ", garlic, onion, mushroom";
    assert vs[..3] == vs[..|vs| - 1];
  }

  /** A clam pizza gets fresh clams in New York and frozen clams in Chicago, with the rest of each region's ingredients. */
  lemma ClamPizzaByRegion()
    ensures var ny := Prepared(ClamPizza, NYPizzaStore.Factory(), NoSlots);
      ny.clams.value.name == "fresh clams" && ny.dough.value.name == "thin crust dough" &&
      ny.sauce.value.name == "marinara sauce" && ny.cheese.value.name == "reggiano cheese"
    ensures var chi := Prepared(ClamPizza, ChicagoPizzaStore.Factory(), NoSlots);
      chi.clams.value.name == "frozen clams" && chi.dough.value.name == "thick crust dough" &&
      chi.sauce.value.name == "plum tomato sauce" && chi.cheese.value.name == "mozzarella cheese"
  {
  }
}
