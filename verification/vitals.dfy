/** The dashboard side of the vitals: the colour a reading is shown in, the
    threshold table that decides it, and the simulated drift of the live
    readings. */
module Vitals {

  /** An inclusive range of readings. */
  datatype Range = Range(min: real, max: real)

  predicate InRange(v: real, r: Range)
  {
    r.min <= v <= r.max
  }

  datatype Thresholds = Thresholds(warning: Range, danger: Range)

  const Red: string := "#FF4B4B"
  const Orange: string := "#FFA500"
  const Green: string := "#0FA76A"

  /** `getColor` of the stat card: danger is checked first, then warning. */
  function GetColor(value: real, t: Thresholds): (colour: string)
    ensures colour == Red <==> InRange(value, t.danger)
    ensures colour == Orange <==> !InRange(value, t.danger) && InRange(value, t.warning)
    ensures colour == Green <==> !InRange(value, t.danger) && !InRange(value, t.warning)
    ensures colour in {Red, Orange, Green}
  {
    if InRange(value, t.danger) then Red
    else if InRange(value, t.warning) then Orange
    else Green
  }

  datatype Vital = Glucose | Systolic | Diastolic | HeartRate | Cholesterol | Spo2 | Bmi

  /** The shipped threshold table. */
  function ThresholdsOf(v: Vital): Thresholds
  {
    match v
    case Glucose => Thresholds(Range(140.0, 180.0), Range(181.0, 999.0))
    case Systolic => Thresholds(Range(120.0, 139.0), Range(140.0, 300.0))
    case Diastolic => Thresholds(Range(80.0, 89.0), Range(90.0, 200.0))
    case HeartRate => Thresholds(Range(100.0, 120.0), Range(121.0, 300.0))
    case Cholesterol => Thresholds(Range(200.0, 239.0), Range(240.0, 600.0))
    case Spo2 => Thresholds(Range(94.0, 96.0), Range(0.0, 93.0))
    case Bmi => Thresholds(Range(25.0, 29.0), Range(30.0, 60.0))
  }

  /** No reading lies in both ranges of a row. */
  predicate Disjoint(t: Thresholds)
  {
    t.warning.max < t.danger.min || t.danger.max < t.warning.min
  }

  /** The warning and danger ranges meet with no whole number between
      them: one ends at n and the other starts at n + 1. */
  predicate Adjacent(t: Thresholds)
  {
    t.warning.max + 1.0 == t.danger.min || t.danger.max + 1.0 == t.warning.min
  }

  /** Every row of the table is two non-empty, disjoint, adjacent ranges. */
  lemma TableIsWellFormed(v: Vital)
    ensures var t := ThresholdsOf(v);
      && t.warning.min <= t.warning.max && t.danger.min <= t.danger.max
      && Disjoint(t) && Adjacent(t)
  {
  }

  /** With disjoint ranges the order of the checks does not matter: the
      colour is orange exactly on the warning range. */
  lemma OrangeIffWarning(value: real, t: Thresholds)
    requires Disjoint(t)
    ensures GetColor(value, t) == Orange <==> InRange(value, t.warning)
    ensures GetColor(value, t) == Red <==> InRange(value, t.danger)
  {
  }

  /** For a whole-number reading anywhere from the lower range's start to
      the upper range's end, a row of the table never shows green. */
  lemma {:induction false} NoGreenGap(v: Vital, n: int)
    requires var t := ThresholdsOf(v);
      var lo := if t.warning.min < t.danger.min then t.warning.min else t.danger.min;
      var hi := if t.warning.max < t.danger.max then t.danger.max else t.warning.max;
      lo <= n as real <= hi
    ensures GetColor(n as real, ThresholdsOf(v)) != Green
  {
    var t := ThresholdsOf(v);
    TableIsWellFormed(v);
    if t.warning.max + 1.0 == t.danger.min {
      assert n as real <= t.warning.max || t.danger.min <= n as real;
    } else {
      assert n as real <= t.danger.max || t.warning.min <= n as real;
    }
  }

  /** A few readings from the shipped table. */
  lemma ColourExamples()
    ensures GetColor(185.0, ThresholdsOf(Glucose)) == Red
    ensures GetColor(180.5, ThresholdsOf(Glucose)) == Green
    ensures GetColor(95.0, ThresholdsOf(Spo2)) == Orange
    ensures GetColor(97.0, ThresholdsOf(Spo2)) == Green
    ensures GetColor(92.0, ThresholdsOf(Spo2)) == Red
  {
  }

  /** The random step of `fluctuate`: floor(r * step * 2) - step for a
      random r in [0, 1). */
  function Change(step: nat, r: real): (c: int)
    requires 0.0 <= r < 1.0
    ensures -(step as int) <= c
    ensures step > 0 ==> c <= step - 1
    ensures step == 0 ==> c == 0
  {
    var s := step as real;
    var x := 2.0 * (r * s);
    assert 0.0 <= r * s;
    assert step > 0 ==> r * s < s by {
      if step > 0 {
        assert (1.0 - r) * s > 0.0;
      }
    }
    x.Floor - step
  }

  /** `fluctuate`: the reading moved by the random step, then clamped by
      `Math.max(min, Math.min(max, updated))`. */
  function Fluctuate(value: int, min: int, max: int, step: nat, r: real): (n: int)
    requires 0.0 <= r < 1.0
    ensures min <= max ==> min <= n <= max
    ensures var u := value + Change(step, r);
      && (min <= u <= max ==> n == u)
      && (u > max && min <= max ==> n == max)
      && (u < min ==> n == min)
      && (max < min ==> n == min)
  {
    var updated := value + Change(step, r);
    var capped := if max < updated then max else updated;
    if min < capped then capped else min
  }

  /** A step moves a reading that is already in range by at most the step,
      and only inside the range. */
  lemma {:induction false} FluctuateMovesLittle(value: int, min: int, max: int, step: nat, r: real)
    requires 0.0 <= r < 1.0 && min <= value <= max
    ensures value - step <= Fluctuate(value, min, max, step, r) <= value + step
  {
    var c := Change(step, r);
    assert -(step as int) <= c <= step;
  }

  /** The live readings the dashboard simulates. */
  datatype LiveVitals = LiveVitals(glucose: int, systolic: int, diastolic: int, heartRate: int,
                                   cholesterol: int, spo2: int, bmi: int)

  const InitialVitals: LiveVitals := LiveVitals(100, 145, 92, 110, 240, 92, 27)

  /** The random draws of one tick, one per reading. */
  datatype Draws = Draws(glucose: real, systolic: real, diastolic: real, heartRate: real,
                         cholesterol: real, spo2: real, bmi: real)

  predicate ValidDraws(d: Draws)
  {
    && 0.0 <= d.glucose < 1.0 && 0.0 <= d.systolic < 1.0 && 0.0 <= d.diastolic < 1.0
    && 0.0 <= d.heartRate < 1.0 && 0.0 <= d.cholesterol < 1.0 && 0.0 <= d.spo2 < 1.0 && 0.0 <= d.bmi < 1.0
  }

  /** The bounds each reading is kept in. */
  predicate InLiveBounds(v: LiveVitals)
  {
    && 80 <= v.glucose <= 250 && 100 <= v.systolic <= 180 && 60 <= v.diastolic <= 120
    && 50 <= v.heartRate <= 160 && 150 <= v.cholesterol <= 330 && 85 <= v.spo2 <= 100 && 18 <= v.bmi <= 35
  }

  /** One tick of the interval: every reading fluctuates with its own
      bounds and step. */
  function Tick(prev: LiveVitals, d: Draws): (next: LiveVitals)
    requires ValidDraws(d)
    ensures InLiveBounds(next)
  {
    LiveVitals(
      Fluctuate(prev.glucose, 80, 250, 8, d.glucose),
      Fluctuate(prev.systolic, 100, 180, 5, d.systolic),
      Fluctuate(prev.diastolic, 60, 120, 3, d.diastolic),
      Fluctuate(prev.heartRate, 50, 160, 7, d.heartRate),
      Fluctuate(prev.cholesterol, 150, 330, 7, d.cholesterol),
      Fluctuate(prev.spo2, 85, 100, 1, d.spo2),
      Fluctuate(prev.bmi, 18, 35, 1, d.bmi))
  }

  /** The readings after a run of ticks. */
  function Simulate(start: LiveVitals, draws: seq<Draws>): LiveVitals
    requires forall i :: 0 <= i < |draws| ==> ValidDraws(draws[i])
    decreases |draws|
  {
    if draws == [] then start else Simulate(Tick(start, draws[0]), draws[1..])
  }

  /** The simulated readings start inside their bounds and never leave
      them, however the random draws fall. */
  lemma {:induction false} SimulationStaysInBounds(draws: seq<Draws>)
    requires forall i :: 0 <= i < |draws| ==> ValidDraws(draws[i])
    ensures InLiveBounds(Simulate(InitialVitals, draws))
  {
    assert InLiveBounds(InitialVitals);
    if draws != [] {
      TicksStayInBounds(Tick(InitialVitals, draws[0]), draws[1..]);
    }
  }

  lemma {:induction false} TicksStayInBounds(start: LiveVitals, draws: seq<Draws>)
    requires InLiveBounds(start)
    requires forall i :: 0 <= i < |draws| ==> ValidDraws(draws[i])
    ensures InLiveBounds(Simulate(start, draws))
    decreases |draws|
  {
    if draws != [] {
      TicksStayInBounds(Tick(start, draws[0]), draws[1..]);
    }
  }
}
