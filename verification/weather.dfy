/** The weather service: the condition table, and the mapping of the current
    weather and forecast responses into what the dashboard shows.  Floating
    point numbers are real numbers here. */
module Weather {
  import opened Wrappers
  import opened Errors
  import opened Decimal

  /** One entry of the embedded condition table. */
  datatype Condition = Condition(code: int, day: string, night: string, icon: int)

  /** The zero `Condition` a lookup of an unknown code yields. */
  const NoCondition: Condition := Condition(0, "", "", 0)

  type Conditions = map<int, Condition>

  /** What a condition lookup produces: the text and the image code. */
  datatype ConditionDesc = ConditionDesc(text: string, image: string)

  /** The map built from the table, entry by entry: a later entry with a code
      already present replaces the earlier one. */
  function BuildConditions(table: seq<Condition>): (m: Conditions)
    ensures m.Keys == set c | c in table :: c.code
    ensures forall k :: k in m ==> m[k] in table && m[k].code == k
  {
    if table == [] then map[]
    else
      var prefix := table[..|table| - 1];
      var last := table[|table| - 1];
      assert table == prefix + [last];
      BuildConditions(prefix)[last.code := last]
  }

  /** Of the entries sharing a code, the last one is the one kept. */
  lemma {:induction false} LastEntryWins(table: seq<Condition>, i: nat)
    requires i < |table|
    requires forall j :: i < j < |table| ==> table[j].code != table[i].code
    ensures BuildConditions(table)[table[i].code] == table[i]
  {
    var prefix := table[..|table| - 1];
    if i < |table| - 1 {
      LastEntryWins(prefix, i);
    }
  }

  /** `parseConditions`: decode the embedded table (None when the JSON decoder
      fails) and index it by code. */
  function ParseConditions(decoded: Option<seq<Condition>>): (r: Result<Conditions, Error>)
    ensures decoded.None? <==> r.Err?
    ensures r.Err? ==> r.error == Wrap(Errors.ParseConditions, Leaf(JsonSyntax))
    ensures r.Ok? ==> r.value.Keys == set c | c in decoded.value :: c.code
    ensures r.Ok? ==> r.value == BuildConditions(decoded.value)
  {
    match decoded
    case None => Err(Wrap(Errors.ParseConditions, Leaf(JsonSyntax)))
    case Some(table) => Ok(BuildConditions(table))
  }

  /** `getCondition`: day or night text and the decimal icon number; an unknown
      code reads as the zero entry, so empty text and image `0`. */
  function GetCondition(conditions: Conditions, code: int, isDay: bool): (d: ConditionDesc)
    ensures code !in conditions ==> d == ConditionDesc("", "0")
    ensures code in conditions && isDay ==> d.text == conditions[code].day
    ensures code in conditions && !isDay ==> d.text == conditions[code].night
  {
    var c := if code in conditions then conditions[code] else NoCondition;
    ConditionDesc(if isDay then c.day else c.night, FormatInt(c.icon))
  }

  /** The image code reads back as the icon number. */
  lemma ImageCodeIsIcon(conditions: Conditions, code: int, isDay: bool)
    requires code in conditions && MinInt32 <= conditions[code].icon <= MaxInt32
    ensures ParseInt32(GetCondition(conditions, code, isDay).image) == Ok(conditions[code].icon)
  {
    ParseFormatInt32(conditions[code].icon);
  }

  /** `math.Round`: the nearest integer, halves away from zero. */
  function Round(x: real): (r: int)
    ensures x - 0.5 <= r as real <= x + 0.5
    ensures r as real == x + 0.5 ==> x > 0.0
    ensures r as real == x - 0.5 ==> x < 0.0
  {
    if x >= 0.0 then (x + 0.5).Floor else -((-x + 0.5).Floor)
  }

  /** A conversion to `uint16` keeps the low 16 bits. */
  function ToUint16(n: int): (r: nat)
    ensures r < 0x1_0000
    ensures 0 <= n < 0x1_0000 ==> r == n
  {
    n % 0x1_0000
  }

  /** Millibars in one millimetre of mercury. */
  const MBarPerMmHg: real := 1.33322387415

  /** `mBarToMmHg`: the pressure in millimetres of mercury, rounded. */
  function MBarToMmHg(mbar: real): (r: nat)
    ensures r < 0x1_0000
  {
    ToUint16(Round(mbar / MBarPerMmHg))
  }

  /** In range, the converted pressure is within half a millimetre of the exact
      value, so back in millibars within half of `MBarPerMmHg`. */
  lemma MBarToMmHgAccuracy(mbar: real)
    requires 0.0 <= mbar / MBarPerMmHg < 65535.0
    ensures var r := MBarToMmHg(mbar) as real;
            && mbar / MBarPerMmHg - 0.5 <= r <= mbar / MBarPerMmHg + 0.5
            && mbar - MBarPerMmHg / 2.0 <= r * MBarPerMmHg <= mbar + MBarPerMmHg / 2.0
  {
    var x := mbar / MBarPerMmHg;
    var r := MBarToMmHg(mbar) as real;
    assert r == Round(x) as real;
    assert x * MBarPerMmHg == mbar;
  }

  /** `kphToMps`: kilometres per hour to metres per second. */
  function KphToMps(kph: real): (mps: real)
    ensures mps * 3.6 == kph
    ensures kph >= 0.0 ==> 0.0 <= mps <= kph
  {
    (kph * 1000.0) / 3600.0
  }

  /** The conversion preserves order. */
  lemma KphToMpsMonotone(a: real, b: real)
    requires a <= b
    ensures KphToMps(a) <= KphToMps(b)
  {
  }

  /** The part of the current-weather response that is used. */
  datatype CurrentResponse = CurrentResponse(
    tempC: real, isDay: int, conditionCode: int, windKph: real, windDegree: int,
    windDir: string, pressureMb: real, precipMm: real, humidity: int, cloud: int,
    feelsLikeC: real, visKm: real, uv: real, gustKph: real)

  datatype CurrentWeather = CurrentWeather(
    isDay: bool, conditionText: string, conditionImageCode: string,
    temperature: real, wind: real, gust: real, windDegree: int, windDir: string,
    pressure: nat, precipitation: real, humidity: nat, cloudPercent: int,
    feelsLike: real, visibility: real, uv: real)

  const NoWeather: CurrentWeather := CurrentWeather(false, "", "", 0.0, 0.0, 0.0, 0, "", 0, 0.0, 0, 0, 0.0, 0.0, 0.0)

  /** `fillCurrentWeather`: day iff `is_day` is positive, the condition by that
      phase, winds in m/s, pressure in mmHg, humidity cut to 8 bits, the rest
      copied. */
  function FillCurrentWeather(conditions: Conditions, resp: CurrentResponse): (w: CurrentWeather)
    ensures w.isDay <==> resp.isDay > 0
    ensures ConditionDesc(w.conditionText, w.conditionImageCode) == GetCondition(conditions, resp.conditionCode, w.isDay)
    ensures w.humidity < 256 && (0 <= resp.humidity < 256 ==> w.humidity == resp.humidity)
    ensures w.humidity % 256 == resp.humidity % 256
    ensures w.wind * 3.6 == resp.windKph && w.gust * 3.6 == resp.gustKph
    ensures w.pressure == MBarToMmHg(resp.pressureMb)
    ensures w.temperature == resp.tempC && w.windDegree == resp.windDegree && w.windDir == resp.windDir
    ensures w.precipitation == resp.precipMm && w.cloudPercent == resp.cloud && w.feelsLike == resp.feelsLikeC
    ensures w.visibility == resp.visKm && w.uv == resp.uv
  {
    var isDay := resp.isDay > 0;
    var cond := GetCondition(conditions, resp.conditionCode, isDay);
    CurrentWeather(isDay, cond.text, cond.image, resp.tempC, KphToMps(resp.windKph), KphToMps(resp.gustKph),
                   resp.windDegree, resp.windDir, MBarToMmHg(resp.pressureMb), resp.precipMm,
                   resp.humidity % 256, resp.cloud, resp.feelsLikeC, resp.visKm, resp.uv)
  }

  /** One day of the forecast response. */
  datatype ForecastDay = ForecastDay(
    date: string, maxTempC: real, minTempC: real, avgTempC: real, maxWindKph: real,
    totalPrecipMm: real, totalSnowCm: real, avgVisKm: real, avgHumidity: real,
    willItRain: int, chanceOfRain: int, willItSnow: int, chanceOfSnow: int,
    conditionCode: int, uv: real)

  datatype ForecastItem = ForecastItem(
    date: string, conditionText: string, conditionImageCode: string,
    maxTemp: real, minTemp: real, avgTemp: real, maxWind: real, totalPrecipitation: real,
    totalSnow: real, avgVis: real, avgHumidity: real, willItRain: bool, chanceOfRain: int,
    willItSnow: bool, chanceOfSnow: int, uv: real)

  /** One forecast item: always the day text, snow in millimetres, wind in m/s,
      rain and snow flags true iff positive. */
  function FillDay(conditions: Conditions, d: ForecastDay): (f: ForecastItem)
    ensures f.date == d.date
    ensures ConditionDesc(f.conditionText, f.conditionImageCode) == GetCondition(conditions, d.conditionCode, true)
    ensures f.totalSnow == d.totalSnowCm * 10.0 && f.maxWind * 3.6 == d.maxWindKph
    ensures (f.willItRain <==> d.willItRain > 0) && (f.willItSnow <==> d.willItSnow > 0)
    ensures f.maxTemp == d.maxTempC && f.minTemp == d.minTempC && f.avgTemp == d.avgTempC
    ensures f.totalPrecipitation == d.totalPrecipMm && f.avgVis == d.avgVisKm && f.avgHumidity == d.avgHumidity
    ensures f.chanceOfRain == d.chanceOfRain && f.chanceOfSnow == d.chanceOfSnow && f.uv == d.uv
  {
    var cond := GetCondition(conditions, d.conditionCode, true);
    ForecastItem(d.date, cond.text, cond.image, d.maxTempC, d.minTempC, d.avgTempC, KphToMps(d.maxWindKph),
                 d.totalPrecipMm, d.totalSnowCm * 10.0, d.avgVisKm, d.avgHumidity, d.willItRain > 0,
                 d.chanceOfRain, d.willItSnow > 0, d.chanceOfSnow, d.uv)
  }

  /** `fillForecast`: one item per day, in the order of the response. */
  method FillForecast(conditions: Conditions, days: seq<ForecastDay>) returns (items: seq<ForecastItem>)
    ensures |items| == |days|
    ensures forall i :: 0 <= i < |days| ==> items[i] == FillDay(conditions, days[i])
  {
    items := [];
    for i := 0 to |days|
      invariant |items| == i
      invariant forall k :: 0 <= k < i ==> items[k] == FillDay(conditions, days[k])
    {
      items := items + [FillDay(conditions, days[i])];
    }
  }

  /** The service state: the condition table and the last mapped data. */
  datatype Service = Service(conditions: Conditions, current: CurrentWeather, forecast: seq<ForecastItem>)

  /** `New`: zero current weather and an empty forecast. */
  function NewService(): (s: Service)
    ensures s.current == NoWeather && s.forecast == [] && s.conditions == map[]
  {
    Service(map[], NoWeather, [])
  }

  /** `Init`: load the condition table; the table is assigned whatever the
      parse returned, so a decode failure is returned and leaves the service
      with no conditions at all (a nil map), whatever it held before. */
  function InitService(s: Service, decoded: Option<seq<Condition>>): (r: (Service, Option<Error>))
    ensures r.1.Some? <==> decoded.None?
    ensures decoded.None? ==> r.0 == s.(conditions := map[])
    ensures decoded.Some? ==> r.0 == s.(conditions := BuildConditions(decoded.value))
  {
    match ParseConditions(decoded)
    case Err(e) => (s.(conditions := map[]), Some(e))
    case Ok(m) => (s.(conditions := m), None)
  }

  /** `getCurrentWeather`: a failed GET or undecodable body (None) changes
      nothing; otherwise the mapped weather replaces the stored one. */
  function UpdateCurrent(s: Service, fetched: Option<CurrentResponse>): (s': Service)
    ensures s'.conditions == s.conditions && s'.forecast == s.forecast
    ensures fetched.None? ==> s' == s
    ensures fetched.Some? ==> s'.current == FillCurrentWeather(s.conditions, fetched.value)
  {
    match fetched
    case None => s
    case Some(resp) => s.(current := FillCurrentWeather(s.conditions, resp))
  }

  /** `getForecast`: a failed GET or undecodable body (None) changes nothing;
      otherwise the mapped forecast replaces the stored one. */
  method UpdateForecast(s: Service, fetched: Option<seq<ForecastDay>>) returns (s': Service)
    ensures s'.conditions == s.conditions && s'.current == s.current
    ensures fetched.None? ==> s' == s
    ensures fetched.Some? ==> |s'.forecast| == |fetched.value|
    ensures fetched.Some? ==> forall i :: 0 <= i < |fetched.value| ==>
              s'.forecast[i] == FillDay(s.conditions, fetched.value[i])
  {
    s' := s;
    if fetched.Some? {
      var items := FillForecast(s.conditions, fetched.value);
      s' := s.(forecast := items);
    }
  }
}
