/**
 * SimUDuck: a duck holds one fly behaviour and one quack behaviour, each
 * chosen from a closed set with a fixed message, and either can be
 * replaced at run time without touching the other.
 *
 * Printed lines are returned without their trailing newline.
 */
module SimUDuck {

  datatype FlyBehavior = FlyWithWings | FlyNoWay | FlyRocketPowered
  {
    /** What `fly` prints. */
    function Message(): string
    {
      match this
      case FlyWithWings => "I'm flying!"
      case FlyNoWay => "I can't fly!"
      case FlyRocketPowered => "I'm flying with a rocket!"
    }
  }

  datatype QuackBehavior = Quack | MuteQuack | Squeak
  {
    /** What `quack` prints. */
    function Message(): string
    {
      match this
      case Quack => "Quack!"
      case MuteQuack => "<< Silence >>"
      case Squeak => "Squeak!"
    }
  }

  /** Each behaviour has a message of its own: the printed line tells which behaviour ran. */
  lemma MessagesIdentifyBehaviors(f: FlyBehavior, g: FlyBehavior, q: QuackBehavior, r: QuackBehavior)
    ensures f.Message() == g.Message() <==> f == g
    ensures q.Message() == r.Message() <==> q == r
  {
    if f != g {
      assert f.Message()[2] != g.Message()[2] || f.Message()[|f.Message()| - 2] != g.Message()[|g.Message()| - 2];
    }
    if q != r {
      assert q.Message()[0] != r.Message()[0];
    }
  }

  /** The two duck subclasses. */
  datatype DuckKind = Mallard | Model

  const SwimLine := "All ducks float, even decoys!"

  class Duck {
    const kind: DuckKind
    var flyBehavior: FlyBehavior
    var quackBehavior: QuackBehavior

    /** `MallardDuck()`: quacks and flies with wings. */
    constructor MallardDuck()
      ensures kind == Mallard && flyBehavior == FlyWithWings && quackBehavior == Quack
    {
      kind := Mallard;
      quackBehavior := Quack;
      flyBehavior := FlyWithWings;
    }

    /** `ModelDuck()`: cannot fly, quacks. */
    constructor ModelDuck()
      ensures kind == Model && flyBehavior == FlyNoWay && quackBehavior == Quack
    {
      kind := Model;
      flyBehavior := FlyNoWay;
      quackBehavior := Quack;
    }

    method Display() returns (line: string)
      ensures line == if kind == Mallard then "I'm a real Mallard duck." else "I'm a model duck."
    {
      match kind
      case Mallard => line := "I'm a real Mallard duck.";
      case Model => line := "I'm a model duck.";
    }

    /** `performFly`: exactly the current fly behaviour's message. */
    method PerformFly() returns (line: string)
      ensures line == flyBehavior.Message()
    {
      line := flyBehavior.Message();
    }

    /** `performQuack`: exactly the current quack behaviour's message. */
    method PerformQuack() returns (line: string)
      ensures line == quackBehavior.Message()
    {
      line := quackBehavior.Message();
    }

    method SetFlyBehavior(fb: FlyBehavior)
      modifies this
      ensures flyBehavior == fb && quackBehavior == old(quackBehavior)
    {
      flyBehavior := fb;
    }

    method SetQuackBehavior(qb: QuackBehavior)
      modifies this
      ensures quackBehavior == qb && flyBehavior == old(flyBehavior)
    {
      quackBehavior := qb;
    }

    /** `swim`: the same line for every duck, whatever its behaviours. */
    method Swim() returns (line: string)
      ensures line == SwimLine
    {
      line := SwimLine;
    }
  }

  /**
   * The demo driver: a mallard flies and quacks, a model duck cannot fly
   * until it is given a rocket.
   */
  method SimUDuckDemo() returns (out: seq<string>)
    ensures out == ["I'm flying!", "Quack!", "I can't fly!", "I'm flying with a rocket!"]
  {
    var mallard := new Duck.MallardDuck();
    var a := mallard.PerformFly();
    var b := mallard.PerformQuack();
    var model := new Duck.ModelDuck();
    var c := model.PerformFly();
    model.SetFlyBehavior(FlyRocketPowered);
    var d := model.PerformFly();
    out := [a, b, c, d];
  }
}
