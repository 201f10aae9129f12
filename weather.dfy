/** The weather data model: one observation (DataPoint), a forecast as an
    ordered sequence of observations, the validity rule for a pair of
    provider responses, and the object holding the latest current weather
    and forecast (WeatherApi). Everything is built from decoded JSON. */
module Weather {
  import opened Wrappers
  import opened Json

  /** Why a response could not be used. `DataFormatError` stands for the
      KeyError, IndexError, TypeError or AttributeError Python raises on a
      record of the wrong shape, and names the field it was reading;
      `InvalidResponse` is the ValueError of the status-code check. */
  datatype WeatherError = DataFormatError(field: string) | InvalidResponse

  /** One observation. `dt` is the raw Unix timestamp; `id`, `description`,
      `icon` and `cityName` are kept as the JSON values the record carried.
      An absent rain amount is None, distinct from a reported 0. */
  datatype DataPoint = DataPoint(
    dt: int,
    temp: real,
    humidity: real,
    id: Json,
    description: Json,
    icon: Json,
    cityName: Json,
    rainLastHour: Option<real>,
    rainThreeHours: Option<real>)

  /** Consecutive forecast steps, oldest first. */
  datatype Forecast = Forecast(data: seq<DataPoint>)

  // ---------------------------------------------------------------------
  // Shape of a usable record, stated declaratively

  /** `v[key]` exists and is a number. */
  predicate HasNumber(v: Json, key: string) {
    v.JObj? && key in v.fields && v.fields[key].JNum?
  }

  /** The rain object, when present, is a dict whose `1h` and `3h` entries,
      when present, are numbers. */
  predicate WellFormedRain(j: Json)
    requires j.JObj?
  {
    "rain" in j.fields ==>
      && j.fields["rain"].JObj?
      && ("1h" in j.fields["rain"].fields ==> HasNumber(j.fields["rain"], "1h"))
      && ("3h" in j.fields["rain"].fields ==> HasNumber(j.fields["rain"], "3h"))
  }

  /** The first element of the `weather` list, when the record has a non-empty one. */
  function FirstCondition(j: Json): Option<Json> {
    match Member(j, "weather")
    case Some(JArr(items)) => if items == [] then None else Some(items[0])
    case _ => None
  }

  /** Everything DataPoint construction reads is there and has the right type. */
  predicate WellFormedRecord(j: Json) {
    && j.JObj?
    && HasNumber(j, "dt") && IsIntegral(j.fields["dt"].n)
    && "main" in j.fields
    && HasNumber(j.fields["main"], "temp")
    && HasNumber(j.fields["main"], "humidity")
    && FirstCondition(j).Some?
    && FirstCondition(j).value.JObj?
    && "id" in FirstCondition(j).value.fields
    && "description" in FirstCondition(j).value.fields
    && "icon" in FirstCondition(j).value.fields
    && WellFormedRain(j)
  }

  // ---------------------------------------------------------------------
  // DataPoint construction, in the order the fields are read

  /** `datetime.fromtimestamp(json['dt'])`, keeping the raw timestamp. */
  function Timestamp(j: Json): Result<int, WeatherError> {
    match Member(j, "dt")
    case Some(JNum(n)) => if IsIntegral(n) then Ok(n.Floor) else Err(DataFormatError("dt"))
    case _ => Err(DataFormatError("dt"))
  }

  /** A numeric field read as `v[key]`. */
  function NumberAt(v: Json, key: string, field: string): Result<real, WeatherError> {
    match Member(v, key)
    case Some(JNum(n)) => Ok(n)
    case _ => Err(DataFormatError(field))
  }

  /** `json.get('weather', [])[0][key]`. */
  function ConditionAt(j: Json, key: string): Result<Json, WeatherError> {
    match FirstCondition(j)
    case None => Err(DataFormatError("weather[0]"))
    case Some(first) => Member(first, key).ToResult(DataFormatError("weather[0]." + key))
  }

  /** `json.get('rain', {}).get(key, {})`: a missing rain object or a missing
      key gives an absent amount; a rain value that is not a dict fails. */
  function RainAt(j: Json, key: string): Result<Option<real>, WeatherError>
    requires j.JObj?
  {
    var rain := GetOr(j.fields, "rain", JObj(map[]));
    if !rain.JObj? then Err(DataFormatError("rain"))
    else if key !in rain.fields then Ok(None)
    else if rain.fields[key].JNum? then Ok(Some(rain.fields[key].n))
    else Err(DataFormatError("rain." + key))
  }

  /** Builds one observation from a current-weather record or a forecast
      list element. It succeeds exactly on well-formed records, and every
      field comes from where the record keeps it. */
  function ParseDataPoint(j: Json): (r: Result<DataPoint, WeatherError>)
    ensures r.Ok? <==> WellFormedRecord(j)
    ensures r.Ok? ==>
      && r.value.dt as real == j.fields["dt"].n
      && r.value.temp == j.fields["main"].fields["temp"].n
      && r.value.humidity == j.fields["main"].fields["humidity"].n
      && r.value.id == FirstCondition(j).value.fields["id"]
      && r.value.description == FirstCondition(j).value.fields["description"]
      && r.value.icon == FirstCondition(j).value.fields["icon"]
      && r.value.cityName == GetOr(j.fields, "name", JObj(map[]))
  {
    if !j.JObj? then Err(DataFormatError("dt"))
    else
      var dt :- Timestamp(j);
      var main := GetOr(j.fields, "main", JObj(map[]));
      var temp :- NumberAt(main, "temp", "main.temp");
      var humidity :- NumberAt(main, "humidity", "main.humidity");
      var id :- ConditionAt(j, "id");
      var description :- ConditionAt(j, "description");
      var icon :- ConditionAt(j, "icon");
      var cityName := GetOr(j.fields, "name", JObj(map[]));
      var rainLastHour :- RainAt(j, "1h");
      var rainThreeHours :- RainAt(j, "3h");
      Ok(DataPoint(dt, temp, humidity, id, description, icon, cityName, rainLastHour, rainThreeHours))
  }

  /** A record with no `rain` object yields both rain amounts absent. */
  lemma NoRainObjectMeansAbsent(j: Json)
    requires ParseDataPoint(j).Ok? && "rain" !in j.fields
    ensures ParseDataPoint(j).value.rainLastHour == None
    ensures ParseDataPoint(j).value.rainThreeHours == None
  {
  }

  /** A reported rain amount, an explicit 0 included, is kept unchanged, and
      a missing key inside the rain object leaves the amount absent. */
  lemma RainAmountsKept(j: Json)
    requires ParseDataPoint(j).Ok? && "rain" in j.fields
    ensures var rain := j.fields["rain"].fields;
      && ParseDataPoint(j).value.rainLastHour == (if "1h" in rain then Some(rain["1h"].n) else None)
      && ParseDataPoint(j).value.rainThreeHours == (if "3h" in rain then Some(rain["3h"].n) else None)
  {
  }

  /** A missing timestamp, temperature or humidity, or an absent or empty
      `weather` list, makes construction fail, naming the first field read
      that was missing. */
  lemma MissingRequiredFieldFails(j: Json)
    requires j.JObj?
    ensures "dt" !in j.fields ==> ParseDataPoint(j) == Err(DataFormatError("dt"))
    ensures Timestamp(j).Ok? && "main" !in j.fields ==> ParseDataPoint(j) == Err(DataFormatError("main.temp"))
    ensures (Timestamp(j).Ok? && "main" in j.fields && HasNumber(j.fields["main"], "temp")
             && "humidity" !in j.fields["main"].fields)
      ==> ParseDataPoint(j) == Err(DataFormatError("main.humidity"))
    ensures (Timestamp(j).Ok? && "main" in j.fields && HasNumber(j.fields["main"], "temp")
             && HasNumber(j.fields["main"], "humidity")
             && ("weather" !in j.fields || j.fields["weather"] == JArr([])))
      ==> ParseDataPoint(j) == Err(DataFormatError("weather[0]"))
  {
  }

  /** The record an observation is read back from: the provider's layout
      with every field of the observation filled in. */
  function Record(p: DataPoint): Json {
    var rain1 := if p.rainLastHour.Some? then map["1h" := JNum(p.rainLastHour.value)] else map[];
    var rain := if p.rainThreeHours.Some? then rain1["3h" := JNum(p.rainThreeHours.value)] else rain1;
    JObj(map[
      "dt" := JNum(p.dt as real),
      "main" := JObj(map["temp" := JNum(p.temp), "humidity" := JNum(p.humidity)]),
      "weather" := JArr([JObj(map["id" := p.id, "description" := p.description, "icon" := p.icon])]),
      "name" := p.cityName,
      "rain" := JObj(rain)])
  }

  /** Construction loses nothing: every observation is read back unchanged
      from its record. */
  lemma RecordRoundTrip(p: DataPoint)
    ensures ParseDataPoint(Record(p)) == Ok(p)
  {
  }

  // ---------------------------------------------------------------------
  // Forecast construction

  /** `[DataPoint(i) for i in records]`: one observation per record, in
      order; the first record that fails makes the whole list fail with
      its error. */
  function ParseEach(records: seq<Json>): (r: Result<seq<DataPoint>, WeatherError>)
    ensures r.Ok? <==> forall i :: 0 <= i < |records| ==> ParseDataPoint(records[i]).Ok?
    ensures r.Ok? ==>
      && |r.value| == |records|
      && forall i :: 0 <= i < |records| ==> ParseDataPoint(records[i]) == Ok(r.value[i])
    ensures r.Err? ==>
      exists i ::
        && 0 <= i < |records|
        && ParseDataPoint(records[i]) == Err(r.error)
        && forall k :: 0 <= k < i ==> ParseDataPoint(records[k]).Ok?
  {
    if records == [] then Ok([])
    else
      var p :- ParseDataPoint(records[0]);
      var rest :- ParseEach(records[1..]);
      Ok([p] + rest)
  }

  /** Builds a forecast from the provider's forecast response. `json['list']`
      must exist; Python iterates whatever it holds, so an empty dict or an
      empty string gives an empty forecast, a non-empty one fails on its
      first element, and a value that cannot be iterated fails. */
  function ParseForecast(j: Json): (r: Result<Forecast, WeatherError>)
    ensures Member(j, "list").None? ==> r == Err(DataFormatError("list"))
    ensures r.Ok? ==> Member(j, "list").Some?
    ensures Member(j, "list").Some? && Member(j, "list").value.JArr? ==>
      var items := Member(j, "list").value.items;
      && (r.Ok? <==> forall i :: 0 <= i < |items| ==> ParseDataPoint(items[i]).Ok?)
      && (r.Ok? ==>
            && |r.value.data| == |items|
            && forall i :: 0 <= i < |items| ==> ParseDataPoint(items[i]) == Ok(r.value.data[i]))
    ensures (Member(j, "list") == Some(JObj(map[])) || Member(j, "list") == Some(JStr("")))
      ==> r == Ok(Forecast([]))
    ensures (Member(j, "list").Some? && (Member(j, "list").value.JObj? || Member(j, "list").value.JStr?)
             && Member(j, "list") != Some(JObj(map[])) && Member(j, "list") != Some(JStr("")))
      ==> r.Err?
  {
    match Member(j, "list")
    case None => Err(DataFormatError("list"))
    case Some(JArr(items)) =>
      var data :- ParseEach(items);
      Ok(Forecast(data))
    case Some(JObj(keys)) => if keys == map[] then Ok(Forecast([])) else Err(DataFormatError("dt"))
    case Some(JStr(chars)) => if chars == "" then Ok(Forecast([])) else Err(DataFormatError("dt"))
    case Some(_) => Err(DataFormatError("list"))
  }

  /** A forecast holds exactly one observation per element of `list`, in
      the same order, and any element that fails makes the whole
      construction fail. */
  lemma ForecastOnePerRecord(j: Json, items: seq<Json>)
    requires Member(j, "list") == Some(JArr(items))
    ensures ParseForecast(j).Ok? <==> forall i :: 0 <= i < |items| ==> ParseDataPoint(items[i]).Ok?
    ensures ParseForecast(j).Ok? ==>
      && |ParseForecast(j).value.data| == |items|
      && forall i :: 0 <= i < |items| ==> ParseDataPoint(items[i]) == Ok(ParseForecast(j).value.data[i])
  {
  }

  /** The records of a sequence of observations. */
  function Records(data: seq<DataPoint>): seq<Json> {
    seq(|data|, i requires 0 <= i < |data| => Record(data[i]))
  }

  /** The forecast response a forecast is read back from. */
  function ForecastRecord(f: Forecast): Json {
    JObj(map["list" := JArr(Records(f.data))])
  }

  lemma {:induction false} ParseEachRecords(data: seq<DataPoint>)
    ensures ParseEach(Records(data)) == Ok(data)
  {
    if data != [] {
      RecordRoundTrip(data[0]);
      assert Records(data)[1..] == Records(data[1..]);
      ParseEachRecords(data[1..]);
      assert [data[0]] + data[1..] == data;
    }
  }

  /** Forecast construction loses nothing: every forecast is read back
      unchanged from its response. */
  lemma ForecastRoundTrip(f: Forecast)
    ensures ParseForecast(ForecastRecord(f)) == Ok(f)
  {
    ParseEachRecords(f.data);
  }

  // ---------------------------------------------------------------------
  // Response validity

  /** The pair of responses the refresh accepts, stated declaratively: both
      are non-empty dicts, the current one reports the number 200 and the
      forecast one the string "200". */
  predicate ResponsesAccepted(current: Json, forecast: Json) {
    && current.JObj? && current.fields != map[]
    && forecast.JObj? && forecast.fields != map[]
    && Member(current, "cod") == Some(JNum(200.0))
    && Member(forecast, "cod") == Some(JStr("200"))
  }

  /** The error raised once the status check has failed: the ValueError's
      message calls `.get` on both responses, which itself raises on a
      value that is not a dict. */
  function RejectionError(current: Json, forecast: Json): WeatherError {
    if current.JObj? && forecast.JObj? then InvalidResponse else DataFormatError("cod")
  }

  /** The status-code check of a refresh, evaluated left to right with
      Python's short-circuiting: emptiness first, then `current['cod'] != 200`,
      then `forecast['cod'] != '200'`. */
  function CheckResponses(current: Json, forecast: Json): (r: Result<(), WeatherError>)
    ensures r.Ok? <==> ResponsesAccepted(current, forecast)
    ensures (r.Err? && current.JObj? && forecast.JObj?
             && Member(current, "cod").Some? && Member(forecast, "cod").Some?)
      ==> r == Err(InvalidResponse)
  {
    if Falsy(current) || Falsy(forecast) then Err(RejectionError(current, forecast))
    else if Member(current, "cod").None? then Err(DataFormatError("cod"))
    else if Member(current, "cod") != Some(JNum(200.0)) then Err(RejectionError(current, forecast))
    else if Member(forecast, "cod").None? then Err(DataFormatError("cod"))
    else if Member(forecast, "cod") != Some(JStr("200")) then Err(RejectionError(current, forecast))
    else Ok(())
  }

  /** The latest current weather and forecast for one location. Both are
      None until the first successful refresh. */
  class WeatherApi {
    var current: Option<DataPoint>
    var forecast: Option<Forecast>

    constructor ()
      ensures current == None && forecast == None
    {
      current := None;
      forecast := None;
    }

    /** The refresh once both responses have been fetched. A failed status
        check changes nothing. Otherwise the current observation is replaced
        as soon as it is built, and the forecast after it: a forecast that
        fails to build leaves the new current observation beside the old
        forecast. */
    method GetWeather(currentJson: Json, forecastJson: Json) returns (r: Result<(), WeatherError>)
      modifies this
      ensures r.Ok? <==> (ResponsesAccepted(currentJson, forecastJson)
        && ParseDataPoint(currentJson).Ok? && ParseForecast(forecastJson).Ok?)
      ensures CheckResponses(currentJson, forecastJson).Err? ==>
        r == CheckResponses(currentJson, forecastJson)
        && current == old(current) && forecast == old(forecast)
      ensures CheckResponses(currentJson, forecastJson).Ok? && ParseDataPoint(currentJson).Err? ==>
        r == Err(ParseDataPoint(currentJson).error)
        && current == old(current) && forecast == old(forecast)
      ensures CheckResponses(currentJson, forecastJson).Ok? && ParseDataPoint(currentJson).Ok? ==>
        && current == Some(ParseDataPoint(currentJson).value)
        && (ParseForecast(forecastJson).Ok? ==> forecast == Some(ParseForecast(forecastJson).value))
        && (ParseForecast(forecastJson).Err? ==>
              r == Err(ParseForecast(forecastJson).error) && forecast == old(forecast))
    {
      var check := CheckResponses(currentJson, forecastJson);
      if check.Err? {
        return Err(check.error);
      }
      var point := ParseDataPoint(currentJson);
      if point.Err? {
        return Err(point.error);
      }
      current := Some(point.value);
      var steps := ParseForecast(forecastJson);
      if steps.Err? {
        return Err(steps.error);
      }
      forecast := Some(steps.value);
      return Ok(());
    }
  }
}
