/**
 * A pizza: a name plus six ingredient slots that the pizza's `prepare`
 * fills from the ingredient factory the pizza was built with, and the four
 * pizza kinds' `prepare` and `toString`.
 *
 * The source has one subclass per pizza kind; here the kind is a constant
 * field of one class and every kind-specific operation dispatches on it.
 */
module Pizzas {
  import opened Ingredients

  datatype Option<+T> = None | Some(value: T)

  /** The four subclasses of `Pizza`. */
  datatype PizzaKind = CheesePizza | PepperoniPizza | ClamPizza | VeggiePizza

  /** The contents of a pizza's six slots; an absent pointer is `None`, the veggies a list. */
  datatype Slots = Slots(dough: Option<Ingredient>, sauce: Option<Ingredient>, veggies: seq<Ingredient>,
                         cheese: Option<Ingredient>, pepperoni: Option<Ingredient>, clams: Option<Ingredient>)

  /** The slots of a freshly constructed pizza: null pointers and an empty veggie vector. */
  const NoSlots := Slots(None, None, [], None, None, None)

  /** The slot of kind `k` holds nothing of another kind (the source's typed setters). */
  predicate WellTyped(s: Slots)
  {
    (s.dough.Some? ==> s.dough.value.kind == DoughKind) &&
    (s.sauce.Some? ==> s.sauce.value.kind == SauceKind) &&
    AllVeggies(s.veggies) &&
    (s.cheese.Some? ==> s.cheese.value.kind == CheeseKind) &&
    (s.pepperoni.Some? ==> s.pepperoni.value.kind == PepperoniKind) &&
    (s.clams.Some? ==> s.clams.value.kind == ClamsKind)
  }

  /** The slot of kind `k` holds something (the veggie slot: a non-empty list). */
  predicate Holds(s: Slots, k: IngredientKind)
  {
    match k
    case DoughKind => s.dough.Some?
    case SauceKind => s.sauce.Some?
    case VeggieKind => s.veggies != []
    case CheeseKind => s.cheese.Some?
    case PepperoniKind => s.pepperoni.Some?
    case ClamsKind => s.clams.Some?
  }

  const AllKinds: set<IngredientKind> := {DoughKind, SauceKind, VeggieKind, CheeseKind, PepperoniKind, ClamsKind}

  /** The kinds whose slot holds something. */
  function Populated(s: Slots): set<IngredientKind>
  {
    set k | k in AllKinds && Holds(s, k)
  }

  /** The slots each pizza kind's `prepare` fills. */
  function Required(k: PizzaKind): set<IngredientKind>
  {
    match k
    case CheesePizza => {DoughKind, SauceKind, CheeseKind}
    case PepperoniPizza => {DoughKind, SauceKind, CheeseKind, PepperoniKind}
    case ClamPizza => {DoughKind, SauceKind, CheeseKind, ClamsKind}
    case VeggiePizza => {DoughKind, SauceKind, VeggieKind}
  }

  /**
   * The slots after `prepare` on a pizza of kind `k` built with factory `f`:
   * every required slot holds the factory's product, every other slot is as before.
   */
  function Prepared(k: PizzaKind, f: IngredientFactory, s: Slots): (r: Slots)
    ensures WellTyped(s) ==> WellTyped(r)
  {
    var r := s.(dough := Some(f.CreateDough()), sauce := Some(f.CreateSauce()));
    match k
    case CheesePizza => r.(cheese := Some(f.CreateCheese()))
    case PepperoniPizza => r.(cheese := Some(f.CreateCheese()), pepperoni := Some(f.CreatePepperoni()))
    case ClamPizza => r.(cheese := Some(f.CreateCheese()), clams := Some(f.CreateClams()))
    case VeggiePizza => r.(veggies := f.CreateVeggies())
  }

  /** `prepare` populates the required slots and leaves the contents of the others as they were. */
  lemma PreparedPopulates(k: PizzaKind, f: IngredientFactory, s: Slots)
    ensures Populated(Prepared(k, f, s)) == Populated(s) + Required(k)
    ensures VeggieKind !in Required(k) ==> Prepared(k, f, s).veggies == s.veggies
    ensures CheeseKind !in Required(k) ==> Prepared(k, f, s).cheese == s.cheese
    ensures PepperoniKind !in Required(k) ==> Prepared(k, f, s).pepperoni == s.pepperoni
    ensures ClamsKind !in Required(k) ==> Prepared(k, f, s).clams == s.clams
  {
    var r := Prepared(k, f, s);
    forall ik | ik in AllKinds
      ensures Holds(r, ik) <==> Holds(s, ik) || ik in Required(k)
    {
    }
  }

  /** A fresh pizza, once prepared, holds exactly its kind's required slots, whatever the region. */
  lemma PreparedExactly(k: PizzaKind, f: IngredientFactory)
    ensures Populated(Prepared(k, f, NoSlots)) == Required(k)
    ensures WellTyped(Prepared(k, f, NoSlots))
  {
    assert Populated(NoSlots) == {};
    PreparedPopulates(k, f, NoSlots);
  }

  /**
   * The same kind prepared in the two regions: the same slots are populated,
   * and each populated slot differs only in the ingredient's name, which
   * differs for every slot but the pepperoni.
   */
  lemma RegionsDifferOnlyInNames(k: PizzaKind)
    ensures Populated(Prepared(k, NYFactory, NoSlots)) == Populated(Prepared(k, ChicagoFactory, NoSlots))
    ensures var ny, chi := Prepared(k, NYFactory, NoSlots), Prepared(k, ChicagoFactory, NoSlots);
      ny.dough.value.name != chi.dough.value.name &&
      ny.sauce.value.name != chi.sauce.value.name &&
      (ny.cheese.Some? ==> ny.cheese.value.name != chi.cheese.value.name) &&
      (ny.clams.Some? ==> ny.clams.value.name != chi.clams.value.name) &&
      ny.pepperoni == chi.pepperoni
  {
    PreparedExactly(k, NYFactory);
    PreparedExactly(k, ChicagoFactory);
  }

  /** The slots `toString` of kind `k` dereferences are non-null. */
  predicate Renderable(k: PizzaKind, s: Slots)
  {
    s.dough.Some? && s.sauce.Some? &&
    (k != VeggiePizza ==> s.cheese.Some?) &&
    (k == PepperoniPizza ==> s.pepperoni.Some?) &&
    (k == ClamPizza ==> s.clams.Some?)
  }

  /** ", v1, v2, ..." for the veggies in list order. */
  function VeggieList(vs: seq<Ingredient>): string
  {
    if vs == [] then "" else VeggieList(vs[..|vs| - 1]) + ", " + vs[|vs| - 1].ToString()
  }

  /** The veggie list of a concatenation is the concatenation of the veggie lists. */
  lemma {:induction false} VeggieListAppend(a: seq<Ingredient>, b: seq<Ingredient>)
    ensures VeggieList(a + b) == VeggieList(a) + VeggieList(b)
    decreases |b|
  {
    if b == [] {
      assert a + b == a;
    } else {
      var n := |b| - 1;
      assert (a + b)[..|a + b| - 1] == a + b[..n];
      VeggieListAppend(a, b[..n]);
    }
  }

  /** Each veggie contributes ", <name>", the first veggie first. */
  lemma VeggieListCons(v: Ingredient, vs: seq<Ingredient>)
    ensures VeggieList([v] + vs) == ", " + v.name + VeggieList(vs)
  {
    VeggieListAppend([v], vs);
    assert VeggieList([v]) == VeggieList([]) + ", " + v.name;
  }

  /** The text `toString` returns for a pizza of kind `k` with slots `s`. */
  function Description(k: PizzaKind, s: Slots): string
    requires Renderable(k, s)
  {
    match k
    case CheesePizza =>
      "The pizza is a " + s.cheese.value.ToString() + " pizza on " + s.dough.value.ToString() +
      " with " + s.sauce.value.ToString()
    case PepperoniPizza =>
      "The pizza is a " + s.pepperoni.value.ToString() + " pizza on " + s.dough.value.ToString() +
      " with " + s.sauce.value.ToString() + " and " + s.cheese.value.ToString()
    case ClamPizza =>
      "The pizza is a " + s.clams.value.ToString() + " pizza on " + s.dough.value.ToString() +
      " with " + s.sauce.value.ToString() + " and " + s.cheese.value.ToString()
    case VeggiePizza =>
      "The pizza is a veggie pizza on " + s.dough.value.ToString() + " with " + s.sauce.value.ToString() +
      VeggieList(s.veggies)
  }

  /** A prepared pizza can always be described: every slot `toString` uses is set. */
  lemma PreparedRenderable(k: PizzaKind, f: IngredientFactory, s: Slots)
    ensures Renderable(k, Prepared(k, f, s))
  {
  }

  const BakeLine := "Bake for 25 minutes at 350"
  const CutLine := "Cutting the pizza into diagonal slices"
  const BoxLine := "Place pizza in official PizzaStore box"

  class Pizza {
    /** Which subclass this pizza is. */
    const kind: PizzaKind
    /** The factory the pizza was constructed with. */
    const factory: IngredientFactory
    var name: string
    var dough: Option<Ingredient>
    var sauce: Option<Ingredient>
    var veggies: seq<Ingredient>
    var cheese: Option<Ingredient>
    var pepperoni: Option<Ingredient>
    var clams: Option<Ingredient>

    function Contents(): Slots
      reads this
    {
      Slots(dough, sauce, veggies, cheese, pepperoni, clams)
    }

    predicate Valid()
      reads this
    {
      WellTyped(Contents())
    }

    /** `CheesePizza(factory)` and its siblings: an unnamed pizza with empty slots. */
    constructor (kind: PizzaKind, factory: IngredientFactory)
      ensures this.kind == kind && this.factory == factory
      ensures name == "" && Contents() == NoSlots && Valid()
    {
      this.kind := kind;
      this.factory := factory;
      name := "";
      dough, sauce, veggies, cheese, pepperoni, clams := None, None, [], None, None, None;
    }

    method SetName(n: string)
      modifies this
      ensures name == n && Contents() == old(Contents())
    {
      name := n;
    }

    method SetDough(d: Ingredient)
      requires Valid() && d.kind == DoughKind
      modifies this
      ensures Valid() && name == old(name)
      ensures Contents() == old(Contents()).(dough := Some(d))
    {
      dough := Some(d);
    }

    method SetSauce(s: Ingredient)
      requires Valid() && s.kind == SauceKind
      modifies this
      ensures Valid() && name == old(name)
      ensures Contents() == old(Contents()).(sauce := Some(s))
    {
      sauce := Some(s);
    }

    method SetCheese(c: Ingredient)
      requires Valid() && c.kind == CheeseKind
      modifies this
      ensures Valid() && name == old(name)
      ensures Contents() == old(Contents()).(cheese := Some(c))
    {
      cheese := Some(c);
    }

    method SetPepperoni(p: Ingredient)
      requires Valid() && p.kind == PepperoniKind
      modifies this
      ensures Valid() && name == old(name)
      ensures Contents() == old(Contents()).(pepperoni := Some(p))
    {
      pepperoni := Some(p);
    }

    method SetClams(c: Ingredient)
      requires Valid() && c.kind == ClamsKind
      modifies this
      ensures Valid() && name == old(name)
      ensures Contents() == old(Contents()).(clams := Some(c))
    {
      clams := Some(c);
    }

    method SetVeggies(vs: seq<Ingredient>)
      requires Valid() && AllVeggies(vs)
      modifies this
      ensures Valid() && name == old(name)
      ensures Contents() == old(Contents()).(veggies := vs)
    {
      veggies := vs;
    }

    /**
     * `prepare` of the pizza's kind: announces the pizza, then sets the
     * required slots one by one from the factory.
     */
    method Prepare() returns (line: string)
      requires Valid()
      modifies this
      ensures Valid() && name == old(name)
      ensures Contents() == Prepared(kind, factory, old(Contents()))
      ensures line == "Preparing " + name
    {
      line := "Preparing " + name;
      SetDough(factory.CreateDough());
      SetSauce(factory.CreateSauce());
      match kind
      case CheesePizza =>
        SetCheese(factory.CreateCheese());
      case PepperoniPizza =>
        SetCheese(factory.CreateCheese());
        SetPepperoni(factory.CreatePepperoni());
      case ClamPizza =>
        SetCheese(factory.CreateCheese());
        SetClams(factory.CreateClams());
      case VeggiePizza =>
        SetVeggies(factory.CreateVeggies());
    }

    /** `bake`: not overridden, so the same line for every pizza. */
    method Bake() returns (line: string)
      ensures line == BakeLine
    {
      line := BakeLine;
    }

    method Cut() returns (line: string)
      ensures line == CutLine
    {
      line := CutLine;
    }

    method Box() returns (line: string)
      ensures line == BoxLine
    {
      line := BoxLine;
    }

    /** `toString` of the pizza's kind; the veggie pizza appends its veggies in a loop. */
    method ToString() returns (str: string)
      requires Renderable(kind, Contents())
      ensures str == Description(kind, Contents())
    {
      match kind
      case CheesePizza =>
        str := "The pizza is a " + cheese.value.ToString() + " pizza on " + dough.value.ToString() +
               " with " + sauce.value.ToString();
      case PepperoniPizza =>
        str := "The pizza is a " + pepperoni.value.ToString() + " pizza on " + dough.value.ToString() +
               " with " + sauce.value.ToString() + " and " + cheese.value.ToString();
      case ClamPizza =>
        str := "The pizza is a " + clams.value.ToString() + " pizza on " + dough.value.ToString() +
               " with " + sauce.value.ToString() + " and " + cheese.value.ToString();
      case VeggiePizza =>
        var head := "The pizza is a veggie pizza on " + dough.value.ToString() + " with " + sauce.value.ToString();
        str := head;
        var i := 0;
        while i < |veggies|
          invariant 0 <= i <= |veggies|
          invariant str == head + VeggieList(veggies[..i])
        {
          assert veggies[..i + 1][..i] == veggies[..i];
          str := str + ", " + veggies[i].ToString();
          i := i + 1;
        }
        assert veggies[..i] == veggies;
    }
  }
}
