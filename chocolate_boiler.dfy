/**
 * The chocolate boiler: two flags and three guarded transitions. Each
 * transition acts only when its guard holds and otherwise changes nothing.
 *
 * The boiler is an ordinary object here; the source's single static
 * instance and its deleted copy operations are not part of this model.
 */
module ChocolateBoiler {

  /** The boiler's two flags. */
  datatype BoilerState = BoilerState(empty: bool, boiled: bool)

  /** The state the private constructor sets up. */
  const Initial := BoilerState(true, false)

  /** `fill`: only an empty boiler is filled, with unboiled mixture. */
  function AfterFill(s: BoilerState): BoilerState
  {
    if s.empty then BoilerState(false, false) else s
  }

  /** `drain`: only a full boiler with boiled mixture is emptied; `boiled` is left as it is. */
  function AfterDrain(s: BoilerState): BoilerState
  {
    if !s.empty && s.boiled then s.(empty := true) else s
  }

  /** `boil`: only a full boiler with unboiled mixture is boiled. */
  function AfterBoil(s: BoilerState): BoilerState
  {
    if !s.empty && !s.boiled then s.(boiled := true) else s
  }

  datatype Op = FillOp | DrainOp | BoilOp

  function Step(s: BoilerState, op: Op): BoilerState
  {
    match op
    case FillOp => AfterFill(s)
    case DrainOp => AfterDrain(s)
    case BoilOp => AfterBoil(s)
  }

  /** The state after the operations `ops`, first to last. */
  function Run(s: BoilerState, ops: seq<Op>): BoilerState
  {
    if ops == [] then s else Step(Run(s, ops[..|ops| - 1]), ops[|ops| - 1])
  }

  /** Each operation applied twice has the effect of applying it once. */
  lemma Idempotent(s: BoilerState)
    ensures AfterFill(AfterFill(s)) == AfterFill(s)
    ensures AfterDrain(AfterDrain(s)) == AfterDrain(s)
    ensures AfterBoil(AfterBoil(s)) == AfterBoil(s)
  {
  }

  /**
   * Only `fill` clears `boiled` and only `drain` sets `empty`; `drain`
   * empties only boiled mixture, and `boil` never acts on an empty boiler.
   */
  lemma TransitionRoles(s: BoilerState, op: Op)
    ensures s.boiled && !Step(s, op).boiled ==> op == FillOp
    ensures !s.empty && Step(s, op).empty ==> op == DrainOp && s.boiled
    ensures s.empty && op == BoilOp ==> Step(s, op) == s
  {
  }

  /** The boiler is not in its initial state: it is full, or its drained mixture was boiled. */
  predicate Started(s: BoilerState)
  {
    !(s.empty && !s.boiled)
  }

  /** Once the boiler has left its initial state, no run brings it back. */
  lemma {:induction false} StartedStays(s: BoilerState, ops: seq<Op>)
    requires Started(s)
    ensures Started(Run(s, ops))
  {
    if ops != [] {
      StartedStays(s, ops[..|ops| - 1]);
    }
  }

  /** How many of the operations `ops`, run from `s`, were `op` and changed the state. */
  function Effective(s: BoilerState, ops: seq<Op>, op: Op): nat
  {
    if ops == [] then 0
    else
      var before := Run(s, ops[..|ops| - 1]);
      var last := ops[|ops| - 1];
      Effective(s, ops[..|ops| - 1], op) + (if last == op && Step(before, last) != before then 1 else 0)
  }

  /**
   * Along any run from the initial state, fills and drains that take
   * effect alternate, starting with a fill: the boiler is empty exactly
   * when as many drains as fills took effect, and full when one more fill did.
   */
  lemma {:induction false} DrainsFollowFills(ops: seq<Op>)
    ensures Effective(Initial, ops, DrainOp) <= Effective(Initial, ops, FillOp)
    ensures Run(Initial, ops).empty ==> Effective(Initial, ops, DrainOp) == Effective(Initial, ops, FillOp)
    ensures !Run(Initial, ops).empty ==> Effective(Initial, ops, DrainOp) + 1 == Effective(Initial, ops, FillOp)
  {
    if ops != [] {
      DrainsFollowFills(ops[..|ops| - 1]);
    }
  }

  class Boiler {
    var empty: bool
    var boiled: bool

    function State(): BoilerState
      reads this
    {
      BoilerState(empty, boiled)
    }

    /** A new boiler is empty and not boiled. */
    constructor ()
      ensures State() == Initial
    {
      empty, boiled := true, false;
    }

    /** `isEmpty`: true exactly when `fill` would act. */
    function IsEmpty(): (e: bool)
      reads this
      ensures e <==> AfterFill(State()) != State()
    {
      empty
    }

    /** `isBoiled`: on a full boiler, true exactly when `boil` would do nothing and `drain` would act. */
    function IsBoiled(): (b: bool)
      reads this
      ensures !State().empty ==> (b <==> AfterBoil(State()) == State())
      ensures !State().empty ==> (b <==> AfterDrain(State()) != State())
    {
      boiled
    }

    method Fill()
      modifies this
      ensures State() == AfterFill(old(State()))
    {
      if IsEmpty() {
        empty := false;
        boiled := false;
      }
    }

    method Drain()
      modifies this
      ensures State() == AfterDrain(old(State()))
    {
      if !IsEmpty() && IsBoiled() {
        empty := true;
      }
    }

    method Boil()
      modifies this
      ensures State() == AfterBoil(old(State()))
    {
      if !IsEmpty() && !IsBoiled() {
        boiled := true;
      }
    }
  }

  /** The demo driver: fill, boil, drain leaves the boiler empty with the mixture boiled. */
  method BoilerDemo() returns (s: BoilerState)
    ensures s == BoilerState(true, true)
  {
    var boiler := new Boiler();
    boiler.Fill();
    boiler.Boil();
    boiler.Drain();
    s := boiler.State();
  }
}
