# Head First design patterns in C++: a verified model

This project models five of the C++ design-pattern examples and proves
what they promise:

- **Pizza store** (abstract factory plus template method). Two regional
  ingredient factories each map six ingredient kinds to fixed names. Four
  pizza kinds each fill a fixed set of slots from their factory. Two stores
  turn a type string into a named pizza, and `orderPizza` prepares, bakes,
  cuts and boxes it. The model has three modules:
  - `Ingredients`: ingredients and factories;
  - `Pizzas`: the `Pizza` class with its slots, setters, `prepare` and
    `toString`;
  - `PizzaStores`: `createPizza` and `orderPizza`.
- **Weather station** (observer). `WeatherStation` has a `WeatherData`
  class with an ordered observer list, a `changed` flag and three
  measurements. A `Display` class stands for the three display kinds.
- **Starbuzz** (decorator). `Starbuzz` models a chain of `Beverage`
  objects: a base drink wrapped in condiments. Only the base drink's size
  is ever read or written. Descriptions and costs are computed
  recursively over the chain.
- **Chocolate boiler**. `ChocolateBoiler` has two flags and three guarded
  transitions.
- **SimUDuck** (strategy). In `SimUDuck`, a duck holds one fly behaviour
  and one quack behaviour, and each can be replaced at run time.

What the C++ code writes to the console is modelled as returned strings,
without the trailing newline. Prices and measurements are exact reals.
Where the source changes fields step by step, the model is a class whose
methods are proved against pure functions. Properties of those functions
are proved as lemmas.

## Model

| member | source | states |
|---|---|---|
| Ingredients.IngredientFactory.CreateDough | pizzastore.cpp:233-235 | each region's factory yields an ingredient of the dough kind (thin crust in New York, thick crust in Chicago) |
| Ingredients.IngredientFactory.CreateSauce | pizzastore.cpp:237-239 | each region's factory yields a sauce (marinara / plum tomato) |
| Ingredients.IngredientFactory.CreateCheese | pizzastore.cpp:241-243 | each region's factory yields a cheese (reggiano / mozzarella) |
| Ingredients.IngredientFactory.CreateVeggies | pizzastore.cpp:245-252 | the veggie list is non-empty, all veggies, no name twice, in insertion order (garlic, onion, mushroom, red pepper / black olives, egg plant, spinach) |
| Ingredients.IngredientFactory.CreatePepperoni | pizzastore.cpp:254-256 | both regions yield a pepperoni ("sliced pepperoni") |
| Ingredients.IngredientFactory.CreateClams | pizzastore.cpp:258-260 | each region's factory yields clams (fresh / frozen) |
| Ingredients.Ingredient.ToString | pizzastore.cpp:17-19 | an ingredient prints as the name it was built with; the names per region are stated by `RegionalVariation`, `ClamPizzaByRegion` and `NYVeggieList` |
| Ingredients.RegionalVariation | pizzastore.cpp:231-292 | the two factories give different dough, sauce, cheese and clams, and the same pepperoni |
| Ingredients.VeggiesDisjoint | pizzastore.cpp:245-283 | New York has four veggies and Chicago three, with no veggie in common |
| Pizzas.Prepared | pizzastore.cpp:298-303 | preparing never puts an ingredient of the wrong kind into a slot |
| Pizzas.PreparedPopulates | pizzastore.cpp:298-367 | after `prepare`, the populated slots are the ones populated before plus exactly the kind's required set; every other slot is untouched |
| Pizzas.PreparedExactly | pizzastore.cpp:298-367 | a fresh pizza once prepared holds exactly {dough, sauce, cheese}, {+pepperoni}, {+clams} or {dough, sauce, veggies}, in either region |
| Pizzas.RegionsDifferOnlyInNames | pizzastore.cpp:231-292 | the same kind prepared in the two regions fills the same slots and differs only in ingredient names (all but the pepperoni) |
| Pizzas.PreparedRenderable | pizzastore.cpp:305-376 | every slot a kind's `toString` dereferences is set once the pizza is prepared |
| Pizzas.VeggieListAppend | pizzastore.cpp:372-374 | the veggie suffix of a concatenated list is the concatenation of the suffixes |
| Pizzas.VeggieListCons | pizzastore.cpp:372-374 | each veggie contributes ", name", in list order, the first veggie first |
| Pizzas.Description | pizzastore.cpp:305-376 | the four `toString` formats, the veggie one followed by `VeggieList`; `Pizza.ToString` is proved to return it and `PreparedRenderable` that a prepared pizza can be described |
| Pizzas.Pizza.constructor | pizzastore.cpp:296 | a new pizza of a kind keeps its factory, has an empty name, null ingredient slots and no veggies |
| Pizzas.Pizza.SetName | pizzastore.cpp:157-159 | sets the name; no slot changes |
| Pizzas.Pizza.SetDough | pizzastore.cpp:165-167 | replaces only the dough slot; name and other slots unchanged |
| Pizzas.Pizza.SetSauce | pizzastore.cpp:173-175 | replaces only the sauce slot; name and other slots unchanged |
| Pizzas.Pizza.SetCheese | pizzastore.cpp:181-183 | replaces only the cheese slot; name and other slots unchanged |
| Pizzas.Pizza.SetPepperoni | pizzastore.cpp:189-191 | replaces only the pepperoni slot; name and other slots unchanged |
| Pizzas.Pizza.SetClams | pizzastore.cpp:197-199 | replaces only the clams slot; name and other slots unchanged |
| Pizzas.Pizza.SetVeggies | pizzastore.cpp:205-207 | replaces only the veggie list; name and other slots unchanged |
| Pizzas.Pizza.Prepare | pizzastore.cpp:298-367 | announces "Preparing <name>" and leaves the slots as `Prepared` of the pizza's kind and factory, name unchanged |
| Pizzas.Pizza.Bake | pizzastore.cpp:141-143 | the same bake line for every pizza |
| Pizzas.Pizza.Cut | pizzastore.cpp:145-147 | the same cut line for every pizza |
| Pizzas.Pizza.Box | pizzastore.cpp:149-151 | the same box line for every pizza |
| Pizzas.Pizza.ToString | pizzastore.cpp:305-376 | the kind's fixed format; the veggie loop appends ", <veggie>" for every veggie in list order |
| PizzaStores.ParseTypeExactly | pizzastore.cpp:399-416 | `createPizza` picks kind k exactly for k's type string, in both directions |
| PizzaStores.ParseTypeUnknown | pizzastore.cpp:421-438 | every string other than "cheese", "veggie", "clam" and "pepperoni" yields no pizza, and those four always yield one |
| PizzaStores.ParseType | pizzastore.cpp:402-414 | the type test chain of `createPizza`; `ParseTypeExactly` and `ParseTypeUnknown` state which strings select which kind |
| PizzaStores.NameStartsWithStyle | pizzastore.cpp:404-413 | a pizza name begins with its store's style |
| PizzaStores.KindWordsDiffer | pizzastore.cpp:404-413 | the kind parts of the names differ for different kinds |
| PizzaStores.SameStoreNamesDiffer | pizzastore.cpp:426-435 | one store gives different kinds different names |
| PizzaStores.PizzaNamesDistinct | pizzastore.cpp:399-438 | no two (store, kind) pairs give the same pizza name |
| PizzaStores.CreatePizza | pizzastore.cpp:399-438 | null exactly for an unrecognised type; otherwise a fresh unprepared pizza of the recognised kind, with the store's factory and the name "<Style> <Kind> Pizza" |
| PizzaStores.OrderPizza | pizzastore.cpp:385-392 | for a recognised type, the pizza is prepared with the store's factory, holds exactly its kind's required slots, and the lines are prepare, bake, cut, box in that order |
| PizzaStores.DemoNames | pizzastore.cpp:404-432 | the three names the demo driver's pizzas get |
| PizzaStores.NYVeggieList | pizzastore.cpp:245-252 | the New York veggie pizza's `toString` ends ", garlic, onion, mushroom, red pepper" |
| PizzaStores.ClamPizzaByRegion | pizzastore.cpp:258-291 | a clam pizza gets fresh clams in New York and frozen clams in Chicago, with each region's dough, sauce and cheese |
| WeatherStation.CountAppend | weatherstation.cpp:23-25 | appending adds the counts of the two lists |
| WeatherStation.Without | weatherstation.cpp:27-29 | `std::list::remove` on the observer list; `WithoutCounts`, `WithoutAppend` and `WithoutAbsent` state what it keeps and drops |
| WeatherStation.CountPositive | weatherstation.cpp:27-29 | an observer is in the list exactly when its count is positive |
| WeatherStation.WithoutCounts | weatherstation.cpp:27-29 | `remove` deletes every occurrence and keeps every other observer as often as it was |
| WeatherStation.WithoutAppend | weatherstation.cpp:27-29 | `remove` distributes over concatenation, so the rest keep their order |
| WeatherStation.WithoutAbsent | weatherstation.cpp:27-29 | removing an absent observer changes nothing |
| WeatherStation.AddThenRemove | weatherstation.cpp:23-29 | adding an observer and removing it leaves the same list as removing it alone |
| WeatherStation.Updated | weatherstation.cpp:86-139 | the field copies of one display `update`; `UpdatedTimesEffect` states the effect of one or more updates |
| WeatherStation.UpdatedTimesEffect | weatherstation.cpp:134-139 | one or more updates leave the temperature displays holding the subject's values, and the forecast shifted (last = previous current after one update, the new pressure after more) |
| WeatherStation.Display.constructor | weatherstation.cpp:153 | a forecast display starts with current pressure 29.92; the other fields are left uninitialised |
| WeatherStation.Display.Update | weatherstation.cpp:86-139 | the current-conditions and heat-index displays copy temperature and humidity; the forecast moves current to last and takes the subject's pressure |
| WeatherStation.WeatherData.constructor | weatherstation.cpp:42-44 | no observers; `changed` left unspecified |
| WeatherStation.WeatherData.AddObserver | weatherstation.cpp:23-25 | appends the observer at the end; nothing else changes |
| WeatherStation.WeatherData.RemoveObserver | weatherstation.cpp:27-29 | deletes every occurrence of the observer; every other observer keeps its count; no-op when absent |
| WeatherStation.WeatherData.SetChanged | weatherstation.cpp:38-40 | sets `changed`; nothing else changes |
| WeatherStation.WeatherData.NotifyObservers | weatherstation.cpp:31-36 | when `changed` is set, every observer is updated once per occurrence, in list order; otherwise no update; `changed` is cleared either way |
| WeatherStation.WeatherData.MeasurementsChanged | weatherstation.cpp:54-57 | every current observer is updated, in order, and `changed` ends cleared |
| WeatherStation.WeatherData.SetMeasurements | weatherstation.cpp:59-64 | stores the three values and delivers them to every current observer |
| WeatherStation.WeatherStationDemo | weatherstation.cpp:157-165 | after the demo's three measurements the temperature displays hold 78 and 90 and the forecast holds 29.2 twice |
| Starbuzz.Beverage.Base | starbuzz.cpp:53-94 | a base drink has its fixed description and size MEDIUM |
| Starbuzz.Beverage.Wrap | starbuzz.cpp:33-39 | a condiment wraps the beverage; its own description and size keep their defaults |
| Starbuzz.Beverage.Innermost | starbuzz.cpp:41-47 | the chain ends in a base drink that belongs to the chain |
| Starbuzz.Beverage.Toppings | starbuzz.cpp:97-134 | the layers above the base drink are all condiments |
| Starbuzz.Beverage.GetSize | starbuzz.cpp:25-27 | `getSize` delegated down the chain returns the base drink's size field (condiments delegate at starbuzz.cpp:41-43) |
| Starbuzz.Beverage.GetDescription | starbuzz.cpp:19-21 | `getDescription` delegated down the chain (suffixes at starbuzz.cpp:101-129) starts with the base drink's description; `DescriptionListsToppings` gives the full form |
| Starbuzz.Beverage.Cost | starbuzz.cpp:59-133 | `cost` of any chain equals the sum of layer prices plus (0.1 + 0.05 × number of condiments) × size value |
| Starbuzz.Beverage.SetSize | starbuzz.cpp:45-47 | only the base drink's size field is written; afterwards every layer reports the new size |
| Starbuzz.LayersShareBase | starbuzz.cpp:41-47 | every layer of a chain is itself a chain with the same base drink |
| Starbuzz.EveryLayerSharesBase | starbuzz.cpp:41-43 | all layers report the base drink's size |
| Starbuzz.SuffixesSnoc | starbuzz.cpp:101-129 | one more condiment appends its suffix at the end |
| Starbuzz.DescriptionListsToppings | starbuzz.cpp:101-129 | the description is the base description followed by one suffix per condiment, innermost first |
| Starbuzz.EspressoDemo | starbuzz.cpp:137-139 | a medium espresso is "Espresso" at 1.99 |
| Starbuzz.DarkRoastMochaMochaWhip | starbuzz.cpp:141 | the chain's description and its price sum 1.49 |
| Starbuzz.DarkRoastDemo | starbuzz.cpp:141-143 | a large dark roast with mocha, mocha, whip costs 1.74 |
| Starbuzz.HouseBlendSoyMochaWhip | starbuzz.cpp:145 | the chain's description and its price sum 1.34 |
| Starbuzz.HouseBlendDemo | starbuzz.cpp:145-147 | a small house blend with soy, mocha, whip costs 1.09 |
| ChocolateBoiler.Idempotent | chocolateboiler.cpp:15-30 | fill, drain and boil applied twice act as once |
| ChocolateBoiler.TransitionRoles | chocolateboiler.cpp:15-30 | only fill clears `boiled`; only drain sets `empty`, and only for a boiled mixture; boil on an empty boiler does nothing |
| ChocolateBoiler.StartedStays | chocolateboiler.cpp:15-30 | no sequence of operations returns a started boiler to the initial state |
| ChocolateBoiler.DrainsFollowFills | chocolateboiler.cpp:15-30 | from the initial state, effective drains never outnumber effective fills; the boiler is empty exactly when they are equal |
| ChocolateBoiler.AfterFill | chocolateboiler.cpp:15-20 | the guarded `fill`; `Idempotent` and `TransitionRoles` state its properties |
| ChocolateBoiler.AfterDrain | chocolateboiler.cpp:22-25 | the guarded `drain`; `Idempotent` and `TransitionRoles` state its properties |
| ChocolateBoiler.AfterBoil | chocolateboiler.cpp:27-30 | the guarded `boil`; `Idempotent` and `TransitionRoles` state its properties |
| ChocolateBoiler.Boiler.constructor | chocolateboiler.cpp:41 | a new boiler is empty and not boiled |
| ChocolateBoiler.Boiler.IsEmpty | chocolateboiler.cpp:32-34 | true exactly when `fill` would act |
| ChocolateBoiler.Boiler.IsBoiled | chocolateboiler.cpp:36-38 | on a full boiler, true exactly when `boil` would do nothing and exactly when `drain` would act |
| ChocolateBoiler.Boiler.Fill | chocolateboiler.cpp:15-20 | fills only an empty boiler, with unboiled mixture; otherwise no change |
| ChocolateBoiler.Boiler.Drain | chocolateboiler.cpp:22-25 | empties only a full boiler with boiled mixture, leaving `boiled`; otherwise no change |
| ChocolateBoiler.Boiler.Boil | chocolateboiler.cpp:27-30 | boils only a full, unboiled boiler; otherwise no change |
| ChocolateBoiler.BoilerDemo | chocolateboiler.cpp:50-54 | fill, boil, drain ends empty with the mixture boiled |
| SimUDuck.MessagesIdentifyBehaviors | simuduck.cpp:14-70 | each fly and each quack behaviour has a message of its own |
| SimUDuck.FlyBehavior.Message | simuduck.cpp:14-37 | the line each fly behaviour prints; `MessagesIdentifyBehaviors` states they are pairwise different |
| SimUDuck.QuackBehavior.Message | simuduck.cpp:46-70 | the line each quack behaviour prints; `MessagesIdentifyBehaviors` states they are pairwise different |
| SimUDuck.Duck.MallardDuck | simuduck.cpp:118-121 | a mallard starts with Quack and FlyWithWings |
| SimUDuck.Duck.ModelDuck | simuduck.cpp:131-134 | a model duck starts with FlyNoWay and Quack |
| SimUDuck.Duck.Display | simuduck.cpp:123-138 | each duck kind's display line |
| SimUDuck.Duck.PerformFly | simuduck.cpp:85-87 | exactly the current fly behaviour's message |
| SimUDuck.Duck.PerformQuack | simuduck.cpp:89-91 | exactly the current quack behaviour's message |
| SimUDuck.Duck.SetFlyBehavior | simuduck.cpp:93-97 | replaces only the fly behaviour; the quack behaviour is unchanged |
| SimUDuck.Duck.SetQuackBehavior | simuduck.cpp:99-103 | replaces only the quack behaviour; the fly behaviour is unchanged |
| SimUDuck.Duck.Swim | simuduck.cpp:105-107 | the same line for every duck, whatever its behaviours |
| SimUDuck.SimUDuckDemo | simuduck.cpp:141-149 | the demo prints "I'm flying!", "Quack!", "I can't fly!", then "I'm flying with a rocket!" |

## Left out

- Console output is returned as strings rather than printed. `notifyObservers` keeps a ghost log of the `update` calls it makes, in order. The display lines themselves (`display()`) are not produced.
- The heat-index polynomial and the forecast's percentage test (weatherstation.cpp:113-150) are not modelled. Measurements are exact reals, not 32-bit floats. They are only copied, so rounding does not matter.
- Starbuzz prices are exact reals, not doubles. `%f` printing is not modelled.
- Memory ownership is not modelled: `new`/`delete`, `unique_ptr` moves, the destructors, delete-before-replace in the duck's setters, and the factory that `createPizza` leaks on an unknown type.
- The chocolate boiler's singleton mechanism (the static instance, `getInstance`, the deleted copy operations) is not modelled. The boiler is an ordinary object.
- `dynamic_cast` in the display `update` methods is not modelled. A display receives the `WeatherData` directly, and that cast always succeeds in the source.
- `Observable` has no other subclass, so it is merged into `WeatherData`. `changed` is uninitialised in the source, so the constructor leaves it unspecified. So are the displays' uncopied fields.
- Duck.cpp is not part of this model. It is an earlier draft of the SimUDuck example that does not compile into a working program.
- The subclass hierarchies (ingredient classes, pizza subclasses, beverage subclasses, duck subclasses, display classes) are represented by a kind tag on one datatype or class.
- Pizzas.Pizza.SetDough and the other slot setters take an ingredient of the right kind (a precondition), which the C++ parameter types enforce, and never null. Passing a null pointer to empty a slot (pizzastore.cpp:165-199) is not modelled; no caller in the source does so.
- PizzaStores.OrderPizza requires a recognised type string. On any other string the source dereferences the null pointer `createPizza` returns.
- Starbuzz.Beverage.SetSize states no separate "descriptions unchanged" clause. Descriptions depend only on each layer's constant fields, so a size change cannot alter them.
- The demo drivers' three printed `toString` lines for the pizzas are not stated as full string literals. Their parts are stated instead, by `PizzaStores.DemoNames`, `PizzaStores.NYVeggieList` and `PizzaStores.ClamPizzaByRegion`, together with `Pizzas.Pizza.ToString`.
