/** The irrigation decision: from a forecast, a soil-moisture reading and a
    moisture threshold, decide whether to water. Arithmetic is on exact
    reals; the source uses binary floating point. */
module Controller {
  import opened Wrappers
  import opened Weather
  import Json

  /** Hours covered by one forecast step. */
  const StepHours: int := 3
  /** Lookaheads must be below five days. */
  const MaxLookaheadHours: int := 120
  /** Rain (mm) a plant needs per forecast step. */
  const RainNeedPerStep: real := 0.45
  /** Temperature (degrees) above which moist soil is still watered. */
  const HotTemperature: real := 30.0
  /** Moisture at or above which soil is never watered when not dry. */
  const MoistureCeiling: int := 60

  /** The assertion on the lookahead failed. */
  datatype DecisionError = LookaheadOutOfRange(hours: int)

  predicate LookaheadInRange(lookaheadHours: int) {
    StepHours <= lookaheadHours < MaxLookaheadHours
  }

  /** Number of whole forecast steps in the lookahead. */
  function Steps(lookaheadHours: int): (steps: nat)
    requires LookaheadInRange(lookaheadHours)
    ensures 1 <= steps <= 39
    ensures StepHours * steps <= lookaheadHours < StepHours * (steps + 1)
  {
    lookaheadHours / StepHours
  }

  function Min(a: int, b: int): int {
    if a <= b then a else b
  }

  /** `forecast.data[:steps]`: the first steps entries, or all of them when
      the forecast is shorter. */
  function Window(forecast: Forecast, steps: nat): (w: seq<DataPoint>)
    ensures |w| == Min(steps, |forecast.data|)
    ensures w == forecast.data[..|w|]
  {
    if steps <= |forecast.data| then forecast.data[..steps] else forecast.data
  }

  // ---------------------------------------------------------------------
  // Aggregates over a window

  /** Sum of a sequence, adding from the front. */
  function Sum(xs: seq<real>): real {
    if xs == [] then 0.0 else Sum(xs[..|xs| - 1]) + xs[|xs| - 1]
  }

  function Max(a: real, b: real): real {
    if a < b then b else a
  }

  /** Running maximum seeded at 0. */
  function MaxFrom0(xs: seq<real>): real {
    if xs == [] then 0.0 else Max(MaxFrom0(xs[..|xs| - 1]), xs[|xs| - 1])
  }

  /** Rain a step contributes: its three-hour amount, 0 when absent. */
  function RainOf(p: DataPoint): real {
    match p.rainThreeHours
    case Some(mm) => mm
    case None => 0.0
  }

  function Rains(w: seq<DataPoint>): seq<real> {
    seq(|w|, i requires 0 <= i < |w| => RainOf(w[i]))
  }

  function Temps(w: seq<DataPoint>): seq<real> {
    seq(|w|, i requires 0 <= i < |w| => w[i].temp)
  }

  function Humidities(w: seq<DataPoint>): seq<real> {
    seq(|w|, i requires 0 <= i < |w| => w[i].humidity)
  }

  function TotalRainfall(w: seq<DataPoint>): real {
    Sum(Rains(w))
  }

  function MaxTemp(w: seq<DataPoint>): real {
    MaxFrom0(Temps(w))
  }

  function MaxHumidity(w: seq<DataPoint>): real {
    MaxFrom0(Humidities(w))
  }

  // ---------------------------------------------------------------------
  // The decision, in closed form

  /** True when the forecast rain over the window is below what the plant
      needs for that many steps. */
  predicate DryForecast(steps: nat, totalRainfall: real) {
    totalRainfall < RainNeedPerStep * steps as real
  }

  /** Dry soil is watered unless enough rain is coming; moist soil only when
      it is hot, little rain is coming and the moisture is below the ceiling. */
  predicate WaterRule(sensorMoisture: int, moistureThreshold: int, steps: nat, totalRainfall: real, maxTemp: real) {
    if sensorMoisture < moistureThreshold then DryForecast(steps, totalRainfall)
    else maxTemp > HotTemperature && DryForecast(steps, totalRainfall) && sensorMoisture < MoistureCeiling
  }

  /** The decision for a forecast, a moisture reading, a threshold and a
      lookahead. */
  function Decision(forecast: Forecast, sensorMoisture: int, moistureThreshold: int, lookaheadHours: int): (r: Result<bool, DecisionError>)
    ensures r.Err? <==> !LookaheadInRange(lookaheadHours)
  {
    if !LookaheadInRange(lookaheadHours) then Err(LookaheadOutOfRange(lookaheadHours))
    else
      var steps := Steps(lookaheadHours);
      var w := Window(forecast, steps);
      Ok(WaterRule(sensorMoisture, moistureThreshold, steps, TotalRainfall(w), MaxTemp(w)))
  }

  // ---------------------------------------------------------------------
  // The implementation

  /** The accumulation loop of the decision: rain total, maximum
      temperature and maximum humidity, both maxima seeded at 0. A rain
      amount is added only when present and non-zero. */
  method Accumulate(window: seq<DataPoint>) returns (totalRainfall: real, maxTemp: real, maxHumidity: real)
    ensures totalRainfall == TotalRainfall(window)
    ensures maxTemp == MaxTemp(window)
    ensures maxHumidity == MaxHumidity(window)
  {
    totalRainfall, maxTemp, maxHumidity := 0.0, 0.0, 0.0;
    for i := 0 to |window|
      invariant totalRainfall == Sum(Rains(window)[..i])
      invariant maxTemp == MaxFrom0(Temps(window)[..i])
      invariant maxHumidity == MaxFrom0(Humidities(window)[..i])
    {
      var step := window[i];
      if step.rainThreeHours.Some? && step.rainThreeHours.value != 0.0 {
        totalRainfall := totalRainfall + step.rainThreeHours.value;
      }
      if step.temp > maxTemp {
        maxTemp := step.temp;
      }
      if step.humidity > maxHumidity {
        maxHumidity := step.humidity;
      }
      assert Rains(window)[..i + 1][..i] == Rains(window)[..i];
      assert Temps(window)[..i + 1][..i] == Temps(window)[..i];
      assert Humidities(window)[..i + 1][..i] == Humidities(window)[..i];
    }
    assert Rains(window)[..|window|] == Rains(window);
    assert Temps(window)[..|window|] == Temps(window);
    assert Humidities(window)[..|window|] == Humidities(window);
  }

  /** Whether to water: fails on a lookahead outside [3, 120), otherwise
      accumulates over the first lookahead/3 forecast steps and applies the
      watering rule. */
  method MakeDecision(forecast: Forecast, sensorMoisture: int, moistureThreshold: int, lookaheadHours: int)
    returns (r: Result<bool, DecisionError>)
    ensures r == Decision(forecast, sensorMoisture, moistureThreshold, lookaheadHours)
  {
    if !LookaheadInRange(lookaheadHours) {
      return Err(LookaheadOutOfRange(lookaheadHours));
    }
    var steps := Steps(lookaheadHours);
    var window := Window(forecast, steps);
    var totalRainfall, maxTemp, maxHumidity := Accumulate(window);
    if sensorMoisture < moistureThreshold {
      if totalRainfall < RainNeedPerStep * steps as real {
        return Ok(true);
      }
    } else {
      if maxTemp > HotTemperature {
        if totalRainfall < RainNeedPerStep * steps as real && sensorMoisture < MoistureCeiling {
          return Ok(true);
        }
      }
    }
    return Ok(false);
  }

  // ---------------------------------------------------------------------
  // Properties of the aggregates

  lemma {:induction false} SumAppend(a: seq<real>, b: seq<real>)
    ensures Sum(a + b) == Sum(a) + Sum(b)
  {
    if b == [] {
      assert a + b == a;
    } else {
      assert (a + b)[..|a + b| - 1] == a + b[..|b| - 1];
      SumAppend(a, b[..|b| - 1]);
    }
  }

  /** The running maximum seeded at 0 is max(0, xs): never negative, at
      least every element, and either 0 or one of the elements. */
  lemma {:induction false} MaxFrom0IsMaxWithZero(xs: seq<real>)
    ensures MaxFrom0(xs) >= 0.0
    ensures forall i :: 0 <= i < |xs| ==> xs[i] <= MaxFrom0(xs)
    ensures MaxFrom0(xs) == 0.0 || exists i :: 0 <= i < |xs| && xs[i] == MaxFrom0(xs)
  {
    if xs != [] {
      var init := xs[..|xs| - 1];
      MaxFrom0IsMaxWithZero(init);
      assert forall i :: 0 <= i < |init| ==> xs[i] == init[i];
      if MaxFrom0(xs) != 0.0 && MaxFrom0(xs) != xs[|xs| - 1] {
        var k :| 0 <= k < |init| && init[k] == MaxFrom0(init);
        assert xs[k] == MaxFrom0(xs);
      }
    }
  }

  /** The maximum temperature over a window is max(0, temperatures): never
      negative, at least every temperature, and 0 or one of them. */
  lemma MaxTempIsMaxWithZero(w: seq<DataPoint>)
    ensures MaxTemp(w) >= 0.0
    ensures forall i :: 0 <= i < |w| ==> w[i].temp <= MaxTemp(w)
    ensures MaxTemp(w) == 0.0 || exists i :: 0 <= i < |w| && w[i].temp == MaxTemp(w)
  {
    MaxFrom0IsMaxWithZero(Temps(w));
    assert forall i :: 0 <= i < |w| ==> Temps(w)[i] == w[i].temp;
    if MaxTemp(w) != 0.0 {
      var i :| 0 <= i < |w| && Temps(w)[i] == MaxTemp(w);
      assert w[i].temp == MaxTemp(w);
    }
  }

  /** The maximum humidity behaves the same way. */
  lemma MaxHumidityIsMaxWithZero(w: seq<DataPoint>)
    ensures MaxHumidity(w) >= 0.0
    ensures forall i :: 0 <= i < |w| ==> w[i].humidity <= MaxHumidity(w)
    ensures MaxHumidity(w) == 0.0 || exists i :: 0 <= i < |w| && w[i].humidity == MaxHumidity(w)
  {
    MaxFrom0IsMaxWithZero(Humidities(w));
    assert forall i :: 0 <= i < |w| ==> Humidities(w)[i] == w[i].humidity;
    if MaxHumidity(w) != 0.0 {
      var i :| 0 <= i < |w| && Humidities(w)[i] == MaxHumidity(w);
      assert w[i].humidity == MaxHumidity(w);
    }
  }

  /** A window whose temperatures are all at or below zero reports a
      maximum temperature of exactly 0, not its true maximum. */
  lemma ColdWindowReportsZero(w: seq<DataPoint>)
    requires forall i :: 0 <= i < |w| ==> w[i].temp <= 0.0
    ensures MaxTemp(w) == 0.0
  {
    MaxTempIsMaxWithZero(w);
  }

  /** The rain total is additive over consecutive windows. */
  lemma TotalRainfallAppend(w1: seq<DataPoint>, w2: seq<DataPoint>)
    ensures TotalRainfall(w1 + w2) == TotalRainfall(w1) + TotalRainfall(w2)
  {
    assert Rains(w1 + w2) == Rains(w1) + Rains(w2);
    SumAppend(Rains(w1), Rains(w2));
  }

  /** An absent three-hour amount and a reported 0 contribute the same. */
  lemma AbsentAndZeroRainAlike(w: seq<DataPoint>, i: nat)
    requires i < |w|
    ensures TotalRainfall(w[i := w[i].(rainThreeHours := None)])
         == TotalRainfall(w[i := w[i].(rainThreeHours := Some(0.0))])
  {
    assert Rains(w[i := w[i].(rainThreeHours := None)]) == Rains(w[i := w[i].(rainThreeHours := Some(0.0))]);
  }

  /** An observation built from a record with no rain object adds exactly 0
      to the rain total. */
  lemma NoRainRecordAddsNothing(j: Json.Json, w: seq<DataPoint>)
    requires ParseDataPoint(j).Ok? && "rain" !in j.fields
    ensures TotalRainfall(w + [ParseDataPoint(j).value]) == TotalRainfall(w)
  {
    var p := ParseDataPoint(j).value;
    NoRainObjectMeansAbsent(j);
    TotalRainfallAppend(w, [p]);
    assert Rains([p]) == [0.0];
    assert Sum([0.0]) == Sum([]) + 0.0;
  }

  // ---------------------------------------------------------------------
  // Properties of the decision

  /** Only the first min(steps, |data|) entries are read: entries after them
      never change the decision. */
  lemma LaterEntriesIgnored(forecast: Forecast, later: seq<DataPoint>, sensorMoisture: int, moistureThreshold: int, lookaheadHours: int)
    requires LookaheadInRange(lookaheadHours) && Steps(lookaheadHours) <= |forecast.data|
    ensures Decision(Forecast(forecast.data + later), sensorMoisture, moistureThreshold, lookaheadHours)
         == Decision(forecast, sensorMoisture, moistureThreshold, lookaheadHours)
  {
    var steps := Steps(lookaheadHours);
    assert (forecast.data + later)[..steps] == forecast.data[..steps];
  }

  /** A forecast shorter than the lookahead is used whole, without error. */
  lemma ShortForecastUsedWhole(forecast: Forecast, sensorMoisture: int, moistureThreshold: int, lookaheadHours: int)
    requires LookaheadInRange(lookaheadHours) && |forecast.data| <= Steps(lookaheadHours)
    ensures Decision(forecast, sensorMoisture, moistureThreshold, lookaheadHours)
         == Ok(WaterRule(sensorMoisture, moistureThreshold, Steps(lookaheadHours),
                         TotalRainfall(forecast.data), MaxTemp(forecast.data)))
  {
    assert forecast.data[..|forecast.data|] == forecast.data;
  }

  /** Dry soil: water exactly when the forecast rain is below 0.45 mm per step. */
  lemma DrySoilRule(forecast: Forecast, sensorMoisture: int, moistureThreshold: int, lookaheadHours: int)
    requires LookaheadInRange(lookaheadHours) && sensorMoisture < moistureThreshold
    ensures var steps := Steps(lookaheadHours);
      Decision(forecast, sensorMoisture, moistureThreshold, lookaheadHours)
        == Ok(TotalRainfall(Window(forecast, steps)) < 0.45 * steps as real)
  {
  }

  /** Dry soil: temperatures play no part; two forecasts whose windows hold
      the same three-hour rain amounts get the same decision. */
  lemma DrySoilIgnoresTemperature(f: Forecast, g: Forecast, sensorMoisture: int, moistureThreshold: int, lookaheadHours: int)
    requires LookaheadInRange(lookaheadHours) && sensorMoisture < moistureThreshold
    requires |Window(f, Steps(lookaheadHours))| == |Window(g, Steps(lookaheadHours))|
    requires forall i :: 0 <= i < |Window(f, Steps(lookaheadHours))| ==>
      Window(f, Steps(lookaheadHours))[i].rainThreeHours == Window(g, Steps(lookaheadHours))[i].rainThreeHours
    ensures Decision(f, sensorMoisture, moistureThreshold, lookaheadHours)
         == Decision(g, sensorMoisture, moistureThreshold, lookaheadHours)
  {
    var steps := Steps(lookaheadHours);
    assert Rains(Window(f, steps)) == Rains(Window(g, steps));
  }

  /** Moist soil: water exactly when it is hotter than 30 degrees, the
      forecast rain is below 0.45 mm per step and the moisture is below 60. */
  lemma MoistSoilRule(forecast: Forecast, sensorMoisture: int, moistureThreshold: int, lookaheadHours: int)
    requires LookaheadInRange(lookaheadHours) && sensorMoisture >= moistureThreshold
    ensures var steps := Steps(lookaheadHours);
      var w := Window(forecast, steps);
      Decision(forecast, sensorMoisture, moistureThreshold, lookaheadHours)
        == Ok(MaxTemp(w) > 30.0 && TotalRainfall(w) < 0.45 * steps as real && sensorMoisture < 60)
  {
  }

  /** Enough forecast rain means no watering, whatever the soil. */
  lemma EnoughRainNeverWaters(forecast: Forecast, sensorMoisture: int, moistureThreshold: int, lookaheadHours: int)
    requires LookaheadInRange(lookaheadHours)
    requires TotalRainfall(Window(forecast, Steps(lookaheadHours))) >= 0.45 * Steps(lookaheadHours) as real
    ensures Decision(forecast, sensorMoisture, moistureThreshold, lookaheadHours) == Ok(false)
  {
  }

  /** Humidity never influences the decision: forecasts that differ only in
      humidity get the same decision. */
  lemma HumidityNeverMatters(f: Forecast, g: Forecast, sensorMoisture: int, moistureThreshold: int, lookaheadHours: int)
    requires |f.data| == |g.data|
    requires forall i :: 0 <= i < |f.data| ==> f.data[i] == g.data[i].(humidity := f.data[i].humidity)
    ensures Decision(f, sensorMoisture, moistureThreshold, lookaheadHours)
         == Decision(g, sensorMoisture, moistureThreshold, lookaheadHours)
  {
    if LookaheadInRange(lookaheadHours) {
      var steps := Steps(lookaheadHours);
      assert Rains(Window(f, steps)) == Rains(Window(g, steps));
      assert Temps(Window(f, steps)) == Temps(Window(g, steps));
    }
  }

  /** One forecast step with the given temperature and three-hour rain. */
  function OneStep(temp: real, rainThreeHours: Option<real>): Forecast {
    Forecast([DataPoint(0, temp, 50.0, Json.JNum(800.0), Json.JStr(""), Json.JStr(""),
                        Json.JStr(""), None, rainThreeHours)])
  }

  /** Worked cases: threshold 45, a 3-hour lookahead and a one-step forecast. */
  lemma WorkedScenarios()
    ensures Decision(OneStep(20.0, None), 30, 45, 3) == Ok(true)
    ensures Decision(OneStep(20.0, Some(1.0)), 30, 45, 3) == Ok(false)
    ensures Decision(OneStep(32.0, None), 50, 45, 3) == Ok(true)
    ensures Decision(OneStep(32.0, None), 65, 45, 3) == Ok(false)
  {
  }

  /** Out-of-range lookaheads fail: 0, 1, 2 and 120 upwards. */
  lemma LookaheadBounds(forecast: Forecast, sensorMoisture: int, moistureThreshold: int, lookaheadHours: int)
    requires lookaheadHours < 3 || lookaheadHours >= 120
    ensures Decision(forecast, sensorMoisture, moistureThreshold, lookaheadHours) == Err(LookaheadOutOfRange(lookaheadHours))
  {
  }
}
