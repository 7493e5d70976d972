/**
 * The weather station: an observable subject with an ordered observer list
 * and a `changed` flag, the weather data it carries, and the three
 * displays that copy what they need from it on every update.
 *
 * Measurements are exact reals that are only copied; the heat-index
 * polynomial, the forecast's percentage test and all printing are not
 * part of this model. The source's `Observable` is only ever used as the
 * base of `WeatherData`, so the two are one class here.
 */
module WeatherStation {

  /** The number of occurrences of `x` in `s`. */
  function Count<T(==)>(s: seq<T>, x: T): nat
  {
    if s == [] then 0
    else Count(s[..|s| - 1], x) + (if s[|s| - 1] == x then 1 else 0)
  }

  /** `s` without any occurrence of `x`, the rest in their order (`std::list::remove`). */
  function Without<T(==)>(s: seq<T>, x: T): seq<T>
  {
    if s == [] then []
    else Without(s[..|s| - 1], x) + (if s[|s| - 1] == x then [] else [s[|s| - 1]])
  }

  /** Counting distributes over concatenation. */
  lemma {:induction false} CountAppend<T>(a: seq<T>, b: seq<T>, x: T)
    ensures Count(a + b, x) == Count(a, x) + Count(b, x)
    decreases |b|
  {
    if b == [] {
      assert a + b == a;
    } else {
      assert (a + b)[..|a + b| - 1] == a + b[..|b| - 1];
      CountAppend(a, b[..|b| - 1], x);
    }
  }

  /** `x` occurs in `s` exactly when its count is positive. */
  lemma {:induction false} CountPositive<T>(s: seq<T>, x: T)
    ensures Count(s, x) > 0 <==> x in s
  {
    if s != [] {
      var init := s[..|s| - 1];
      CountPositive(init, x);
      assert s == init + [s[|s| - 1]];
    }
  }

  /**
   * Removing `x` deletes every occurrence of it and keeps every other
   * element as often as it was.
   */
  lemma {:induction false} WithoutCounts<T>(s: seq<T>, x: T, y: T)
    ensures Count(Without(s, x), x) == 0
    ensures y != x ==> Count(Without(s, x), y) == Count(s, y)
  {
    if s != [] {
      var init := s[..|s| - 1];
      WithoutCounts(init, x, y);
      var tail := if s[|s| - 1] == x then [] else [s[|s| - 1]];
      CountAppend(Without(init, x), tail, x);
      CountAppend(Without(init, x), tail, y);
    }
  }

  /** Removal distributes over concatenation, so what remains keeps its order. */
  lemma {:induction false} WithoutAppend<T>(a: seq<T>, b: seq<T>, x: T)
    ensures Without(a + b, x) == Without(a, x) + Without(b, x)
    decreases |b|
  {
    if b == [] {
      assert a + b == a;
    } else {
      assert (a + b)[..|a + b| - 1] == a + b[..|b| - 1];
      WithoutAppend(a, b[..|b| - 1], x);
    }
  }

  /** Removing an absent observer changes nothing. */
  lemma {:induction false} WithoutAbsent<T>(s: seq<T>, x: T)
    requires x !in s
    ensures Without(s, x) == s
  {
    if s != [] {
      var init := s[..|s| - 1];
      WithoutAbsent(init, x);
      assert s == init + [s[|s| - 1]];
    }
  }

  /** Adding an observer and removing it again leaves no trace of it. */
  lemma AddThenRemove<T>(s: seq<T>, x: T)
    ensures Without(s + [x], x) == Without(s, x)
  {
    WithoutAppend(s, [x], x);
    assert Without([x], x) == Without([], x) + [];
  }

  /** The three display classes. */
  datatype DisplayKind = CurrentConditions | HeatIndex | Forecast

  /** What a display keeps: temperature and humidity, or the two-value pressure shift register. */
  datatype DisplayState = DisplayState(temperature: real, humidity: real, currentPressure: real, lastPressure: real)

  /** One `update` of a display of kind `k` from a subject holding `t`, `h` and `p`. */
  function Updated(k: DisplayKind, s: DisplayState, t: real, h: real, p: real): DisplayState
  {
    match k
    case CurrentConditions => s.(temperature := t, humidity := h)
    case HeatIndex => s.(temperature := t, humidity := h)
    case Forecast => s.(lastPressure := s.currentPressure, currentPressure := p)
  }

  /** `n` updates in a row from the same subject values. */
  function UpdatedTimes(k: DisplayKind, s: DisplayState, n: nat, t: real, h: real, p: real): DisplayState
  {
    if n == 0 then s else Updated(k, UpdatedTimes(k, s, n - 1, t, h, p), t, h, p)
  }

  /**
   * What one or more updates leave behind: the temperature displays hold
   * the subject's temperature and humidity; the forecast holds the
   * subject's pressure as current, and as last either the pressure it held
   * before (one update) or the subject's pressure again (more than one);
   * no display touches the fields of another kind.
   */
  lemma {:induction false} UpdatedTimesEffect(k: DisplayKind, s: DisplayState, n: nat, t: real, h: real, p: real)
    requires n >= 1
    ensures var r := UpdatedTimes(k, s, n, t, h, p);
      (k != Forecast ==> r == s.(temperature := t, humidity := h)) &&
      (k == Forecast ==> r == s.(lastPressure := if n == 1 then s.currentPressure else p, currentPressure := p))
  {
    if n > 1 {
      UpdatedTimesEffect(k, s, n - 1, t, h, p);
    }
  }

  const InitialPressure: real := 29.92

  class Display {
    const kind: DisplayKind
    var temperature: real
    var humidity: real
    var currentPressure: real
    var lastPressure: real

    function State(): DisplayState
      reads this
    {
      DisplayState(temperature, humidity, currentPressure, lastPressure)
    }

    /** A new display; only the forecast's current pressure has an initial value. */
    constructor (kind: DisplayKind)
      ensures this.kind == kind
      ensures kind == Forecast ==> currentPressure == InitialPressure
    {
      this.kind := kind;
      currentPressure := InitialPressure;
    }

    /** `update(subject)` of the display's class. */
    method Update(subject: WeatherData)
      modifies this
      ensures State() == Updated(kind, old(State()), subject.temperature, subject.humidity, subject.pressure)
    {
      match kind
      case CurrentConditions =>
        temperature := subject.temperature;
        humidity := subject.humidity;
      case HeatIndex =>
        temperature := subject.temperature;
        humidity := subject.humidity;
      case Forecast =>
        lastPressure := currentPressure;
        currentPressure := subject.pressure;
    }
  }

  class WeatherData {
    var observers: seq<Display>
    var changed: bool
    var temperature: real
    var humidity: real
    var pressure: real
    /** The `update` calls made so far, in order (each one prints a display line). */
    ghost var notified: seq<Display>

    /** No observers; `changed` and the measurements are left uninitialised, as in the source. */
    constructor ()
      ensures observers == [] && notified == []
    {
      observers := [];
      notified := [];
    }

    method AddObserver(o: Display)
      modifies this
      ensures observers == old(observers) + [o]
      ensures changed == old(changed) && notified == old(notified)
      ensures temperature == old(temperature) && humidity == old(humidity) && pressure == old(pressure)
    {
      observers := observers + [o];
    }

    method RemoveObserver(o: Display)
      modifies this
      ensures observers == Without(old(observers), o)
      ensures o !in observers
      ensures forall x :: x != o ==> Count(observers, x) == Count(old(observers), x)
      ensures o !in old(observers) ==> observers == old(observers)
      ensures changed == old(changed) && notified == old(notified)
      ensures temperature == old(temperature) && humidity == old(humidity) && pressure == old(pressure)
    {
      ghost var before := observers;
      observers := Without(observers, o);
      WithoutCounts(before, o, o);
      CountPositive(observers, o);
      forall x | x != o
        ensures Count(observers, x) == Count(before, x)
      {
        WithoutCounts(before, o, x);
      }
      if o !in before {
        WithoutAbsent(before, o);
      }
    }

    method SetChanged()
      modifies this
      ensures changed
      ensures observers == old(observers) && notified == old(notified)
      ensures temperature == old(temperature) && humidity == old(humidity) && pressure == old(pressure)
    {
      changed := true;
    }

    /**
     * `notifyObservers`: when `changed` is set, every observer is updated
     * once per occurrence in the list, in list order; then `changed` is
     * cleared in every case.
     */
    method NotifyObservers()
      modifies this, observers
      ensures !changed && observers == old(observers)
      ensures temperature == old(temperature) && humidity == old(humidity) && pressure == old(pressure)
      ensures notified == old(notified) + (if old(changed) then observers else [])
      ensures forall o :: o in observers ==>
                o.State() == UpdatedTimes(o.kind, old(o.State()), if old(changed) then Count(observers, o) else 0,
                                          temperature, humidity, pressure)
    {
      if changed {
        var i := 0;
        while i < |observers|
          invariant 0 <= i <= |observers|
          invariant observers == old(observers) && changed == old(changed)
          invariant temperature == old(temperature) && humidity == old(humidity) && pressure == old(pressure)
          invariant notified == old(notified) + observers[..i]
          invariant forall o :: o in observers ==>
                      o.State() == UpdatedTimes(o.kind, old(o.State()), Count(observers[..i], o),
                                                temperature, humidity, pressure)
        {
          assert observers[..i + 1][..i] == observers[..i];
          observers[i].Update(this);
          notified := notified + [observers[i]];
          i := i + 1;
        }
        assert observers[..i] == observers;
      }
      changed := false;
    }

    method MeasurementsChanged()
      modifies this, observers
      ensures !changed && observers == old(observers)
      ensures temperature == old(temperature) && humidity == old(humidity) && pressure == old(pressure)
      ensures notified == old(notified) + observers
      ensures forall o :: o in observers ==>
                o.State() == UpdatedTimes(o.kind, old(o.State()), Count(observers, o), temperature, humidity, pressure)
    {
      SetChanged();
      NotifyObservers();
    }

    /**
     * `setMeasurements`: store the three values and notify, so every
     * current observer receives them.
     */
    method SetMeasurements(t: real, h: real, p: real)
      modifies this, observers
      ensures temperature == t && humidity == h && pressure == p
      ensures !changed && observers == old(observers)
      ensures notified == old(notified) + observers
      ensures forall o :: o in observers && o.kind != Forecast ==>
                o.temperature == t && o.humidity == h &&
                o.currentPressure == old(o.currentPressure) && o.lastPressure == old(o.lastPressure)
      ensures forall o :: o in observers && o.kind == Forecast ==>
                o.currentPressure == p &&
                o.lastPressure == (if Count(observers, o) == 1 then old(o.currentPressure) else p) &&
                o.temperature == old(o.temperature) && o.humidity == old(o.humidity)
    {
      temperature, humidity, pressure := t, h, p;
      MeasurementsChanged();
      forall o | o in observers
        ensures o.State() == UpdatedTimes(o.kind, old(o.State()), Count(observers, o), t, h, p)
        ensures Count(observers, o) >= 1
      {
        CountPositive(observers, o);
      }
      forall o | o in observers
        ensures var r := UpdatedTimes(o.kind, old(o.State()), Count(observers, o), t, h, p);
          (o.kind != Forecast ==> r == old(o.State()).(temperature := t, humidity := h)) &&
          (o.kind == Forecast ==>
             r == old(o.State()).(lastPressure := if Count(observers, o) == 1 then old(o.currentPressure) else p,
                                  currentPressure := p))
      {
        CountPositive(observers, o);
        UpdatedTimesEffect(o.kind, old(o.State()), Count(observers, o), t, h, p);
      }
    }
  }

  /**
   * The demo driver: one display of each kind, then three sets of
   * measurements; afterwards the temperature displays show the last
   * temperature and humidity, and the forecast has shifted 30.4, 29.2, 29.2
   * through its register.
   */
  method WeatherStationDemo() returns (current: Display, heat: Display, forecast: Display)
    ensures current.State().temperature == 78.0 && current.State().humidity == 90.0
    ensures heat.State().temperature == 78.0 && heat.State().humidity == 90.0
    ensures forecast.State().currentPressure == 29.2 && forecast.State().lastPressure == 29.2
  {
    var weatherData := new WeatherData();
    current := new Display(CurrentConditions);
    heat := new Display(HeatIndex);
    forecast := new Display(Forecast);
    weatherData.AddObserver(current);
    weatherData.AddObserver(heat);
    weatherData.AddObserver(forecast);
    assert weatherData.observers == [current, heat, forecast];
    assert Count([current, heat, forecast], forecast) == 1 by {
      assert [current][..0] == [];
      assert Count([current], forecast) == 0;
      assert [current, heat][..1] == [current];
      assert Count([current, heat], forecast) == 0;
      assert [current, heat, forecast][..2] == [current, heat];
    }
    weatherData.SetMeasurements(80.0, 65.0, 30.4);
    weatherData.SetMeasurements(82.0, 70.0, 29.2);
    weatherData.SetMeasurements(78.0, 90.0, 29.2);
  }
}
