/** The typed sensors of the gateway: `sensor_ht` (voltage, temperature,
    humidity) and `weather.v1` (the same plus pressure).  Readings are kept as
    integers in the units the gateway sends: millivolts, hundredths of a degree,
    hundredths of a percent, and pressure as sent. */
module Device {
  import opened Wrappers
  import opened Errors
  import opened Decimal
  import opened EventRouter
  import opened Transport

  /** What `json.Unmarshal` makes of a `sensor_ht` payload; None is an absent or null member. */
  datatype HTData = HTData(voltage: Option<int>, temperature: Option<string>, humidity: Option<string>)

  /** What `json.Unmarshal` makes of a `weather.v1` payload. */
  datatype WeatherData = WeatherData(
    voltage: Option<int>, temperature: Option<string>, humidity: Option<string>, pressure: Option<string>)

  /** The three readings both models keep.  The source stores them as float32
      voltage/1000, temperature/100 and humidity/100. */
  datatype Climate = Climate(voltage: int, temperature: int, humidity: int)

  const ZeroClimate: Climate := Climate(0, 0, 0)

  /** `LastUpdateAt`: the zero `time.Time`, or the clock reading of the last successful parse. */
  datatype Instant = ZeroTime | At(clock: nat)

  datatype SensorHT = SensorHT(sid: string, climate: Climate, lastUpdate: Option<nat>)

  datatype WeatherV1 = WeatherV1(sid: string, climate: Climate, pressure: int, lastUpdate: Option<nat>)

  /** The state a `parseData` call leaves behind and the error it returned.  An
      error does not undo the fields stored before it. */
  datatype Parsed<T> = Parsed(value: T, err: Option<Error>)

  /** A present text field must be a base-10 int32. */
  predicate FieldOk(text: Option<string>) {
    text.None? || ParseInt32(text.value).Ok?
  }

  /** The value an optional text field leaves in a reading: its parse if it is
      present and parses, `prior` otherwise. */
  function Updated(text: Option<string>, prior: int): int {
    if text.Some? && ParseInt32(text.value).Ok? then ParseInt32(text.value).value else prior
  }

  /** The shared part of both `parseData`s, in the code's order: voltage (which
      cannot fail), temperature, humidity.  The first unparsable field stops
      the parse; what was stored before it stays stored. */
  function ParseClimate(c: Climate, voltage: Option<int>, temperature: Option<string>, humidity: Option<string>)
    : (r: Parsed<Climate>)
    ensures r.value.voltage == voltage.GetOr(c.voltage)
    ensures r.value.temperature == Updated(temperature, c.temperature)
    ensures r.value.humidity == if FieldOk(temperature) then Updated(humidity, c.humidity) else c.humidity
    ensures r.err.None? <==> FieldOk(temperature) && FieldOk(humidity)
    ensures !FieldOk(temperature) ==> r.err == Some(Wrap(ParseTemperature(temperature.value), Leaf(ParseInt32(temperature.value).error)))
    ensures FieldOk(temperature) && !FieldOk(humidity) ==> r.err == Some(Wrap(ParseHumidity(humidity.value), Leaf(ParseInt32(humidity.value).error)))
  {
    var c1 := c.(voltage := voltage.GetOr(c.voltage));
    match ParseField(temperature, c1.temperature, ParseTemperature(temperature.GetOr("")))
    case Err(e) => Parsed(c1, Some(e))
    case Ok(temp) =>
      var c2 := c1.(temperature := temp);
      match ParseField(humidity, c2.humidity, ParseHumidity(humidity.GetOr("")))
      case Err(e) => Parsed(c2, Some(e))
      case Ok(hum) => Parsed(c2.(humidity := hum), None)
  }

  /** One optional text field: absent keeps `prior`, unparsable is an error with
      the given message around the strconv error. */
  function ParseField(text: Option<string>, prior: int, reason: Reason): (r: Result<int, Error>)
    ensures r.Ok? <==> FieldOk(text)
    ensures r.Ok? ==> r.value == Updated(text, prior)
    ensures r.Err? ==> r.error == Wrap(reason, Leaf(ParseInt32(text.value).error))
  {
    match text
    case None => Ok(prior)
    case Some(s) =>
      match ParseInt32(s)
      case Err(e) => Err(Wrap(reason, Leaf(e)))
      case Ok(v) => Ok(v)
  }

  /** `SensorHT.parseData`: malformed JSON changes nothing; otherwise fields are
      stored in order and the timestamp moves only when every field parsed. */
  function ParseHT(s: SensorHT, decoded: Option<HTData>, now: nat): (r: Parsed<SensorHT>)
    ensures r.value.sid == s.sid
    ensures decoded.None? ==> r == Parsed(s, Some(Wrap(ParseData, Leaf(JsonSyntax))))
    ensures r.err.None? <==> decoded.Some? && FieldOk(decoded.value.temperature) && FieldOk(decoded.value.humidity)
    ensures r.value.lastUpdate == if r.err.None? then Some(now) else s.lastUpdate
    ensures decoded.Some? ==> var d := decoded.value;
      r.value.climate == ParseClimate(s.climate, d.voltage, d.temperature, d.humidity).value
  {
    match decoded
    case None => Parsed(s, Some(Wrap(ParseData, Leaf(JsonSyntax))))
    case Some(d) =>
      var pc := ParseClimate(s.climate, d.voltage, d.temperature, d.humidity);
      if pc.err.Some? then Parsed(s.(climate := pc.value), pc.err)
      else Parsed(s.(climate := pc.value, lastUpdate := Some(now)), None)
  }

  /** `WeatherV1.parseData`: the `sensor_ht` fields, then pressure, stored
      unscaled.  A bad pressure is reported after the other three are stored. */
  function ParseWeather(s: WeatherV1, decoded: Option<WeatherData>, now: nat): (r: Parsed<WeatherV1>)
    ensures r.value.sid == s.sid
    ensures decoded.None? ==> r == Parsed(s, Some(Wrap(ParseData, Leaf(JsonSyntax))))
    ensures r.err.None? <==> decoded.Some? && var d := decoded.value;
      FieldOk(d.temperature) && FieldOk(d.humidity) && FieldOk(d.pressure)
    ensures r.value.lastUpdate == if r.err.None? then Some(now) else s.lastUpdate
    ensures decoded.Some? ==> var d := decoded.value;
      && r.value.climate == ParseClimate(s.climate, d.voltage, d.temperature, d.humidity).value
      && r.value.pressure == if FieldOk(d.temperature) && FieldOk(d.humidity) then Updated(d.pressure, s.pressure) else s.pressure
  {
    match decoded
    case None => Parsed(s, Some(Wrap(ParseData, Leaf(JsonSyntax))))
    case Some(d) =>
      var pc := ParseClimate(s.climate, d.voltage, d.temperature, d.humidity);
      if pc.err.Some? then Parsed(s.(climate := pc.value), pc.err)
      else
        match ParseField(d.pressure, s.pressure, ParsePressure(d.pressure.GetOr("")))
        case Err(e) => Parsed(s.(climate := pc.value), Some(e))
        case Ok(p) => Parsed(s.(climate := pc.value, pressure := p, lastUpdate := Some(now)), None)
  }

  /** `LastUpdateAt` for either model: zero until the first successful parse. */
  function LastUpdateAt(lastUpdate: Option<nat>): (r: Instant)
    ensures r.ZeroTime? <==> lastUpdate.None?
  {
    match lastUpdate
    case None => ZeroTime
    case Some(n) => At(n)
  }

  /** The state a constructor leaves: the transport with or without the new
      sensor's consumers, and the sensor or the error. */
  datatype Built<T> = Built(t: Transport, result: Result<T, Error>)

  /** Both consumers of the sensor stored at `slot`, registered under `sid`. */
  function RegisterSensor(t: Transport, sid: string, slot: nat): (t': Transport)
    ensures t'.router.heartbeat == t.router.heartbeat[sid := SensorHeartbeat(slot)]
    ensures t'.router.report == t.router.report[sid := SensorReport(slot)]
    ensures t'.awaiting == t.awaiting && t'.gatewaySid == t.gatewaySid && t'.gatewayToken == t.gatewayToken
  {
    t.(router := RegisterReport(RegisterHeartbeat(t.router, sid, SensorHeartbeat(slot)), sid, SensorReport(slot)))
  }

  /** `NewSensorHT`: zero readings, then the initial payload; on failure the
      error is returned and nothing is registered. */
  function NewSensorHT(t: Transport, sid: string, init: Option<HTData>, slot: nat, now: nat): (r: Built<SensorHT>)
    ensures r.result.Ok? <==> ParseHT(SensorHT(sid, ZeroClimate, None), init, now).err.None?
    ensures r.result.Err? ==> r.t == t && r.result.error == Wrap(CreateSensor(sid), ParseHT(SensorHT(sid, ZeroClimate, None), init, now).err.value)
    ensures r.result.Ok? ==> r.result.value == ParseHT(SensorHT(sid, ZeroClimate, None), init, now).value
    ensures r.result.Ok? ==> && r.t == RegisterSensor(t, sid, slot)
                             && r.result.value.sid == sid
                             && r.result.value.lastUpdate == Some(now)
  {
    var p := ParseHT(SensorHT(sid, ZeroClimate, None), init, now);
    match p.err
    case Some(e) => Built(t, Err(Wrap(CreateSensor(sid), e)))
    case None => Built(RegisterSensor(t, sid, slot), Ok(p.value))
  }

  /** `NewWeatherV1`, with the same shape (and the same error text). */
  function NewWeatherV1(t: Transport, sid: string, init: Option<WeatherData>, slot: nat, now: nat): (r: Built<WeatherV1>)
    ensures r.result.Ok? <==> ParseWeather(WeatherV1(sid, ZeroClimate, 0, None), init, now).err.None?
    ensures r.result.Err? ==> r.t == t && r.result.error == Wrap(CreateSensor(sid), ParseWeather(WeatherV1(sid, ZeroClimate, 0, None), init, now).err.value)
    ensures r.result.Ok? ==> r.result.value == ParseWeather(WeatherV1(sid, ZeroClimate, 0, None), init, now).value
    ensures r.result.Ok? ==> && r.t == RegisterSensor(t, sid, slot)
                             && r.result.value.sid == sid
                             && r.result.value.lastUpdate == Some(now)
  {
    var p := ParseWeather(WeatherV1(sid, ZeroClimate, 0, None), init, now);
    match p.err
    case Some(e) => Built(t, Err(Wrap(CreateSensor(sid), e)))
    case None => Built(RegisterSensor(t, sid, slot), Ok(p.value))
  }

  /** `OnHeartBeat` / `OnReport`: apply the payload as `parseData` does and
      discard its error. */
  function OnEventHT(s: SensorHT, decoded: Option<HTData>, now: nat): (s': SensorHT)
    ensures s'.sid == s.sid
    ensures decoded.None? ==> s' == s
    ensures s' == ParseHT(s, decoded, now).value
  {
    ParseHT(s, decoded, now).value
  }

  /** The same for the weather station. */
  function OnEventWeather(s: WeatherV1, decoded: Option<WeatherData>, now: nat): (s': WeatherV1)
    ensures s'.sid == s.sid
    ensures decoded.None? ==> s' == s
    ensures s' == ParseWeather(s, decoded, now).value
  {
    ParseWeather(s, decoded, now).value
  }

  /** The worked example: voltage 3000 mV, temperature "215", humidity "612";
      then a payload with only temperature "220" changes only the temperature. */
  lemma ExampleHT(sid: string, t1: nat, t2: nat)
    ensures var s1 := ParseHT(SensorHT(sid, ZeroClimate, None), Some(HTData(Some(3000), Some("215"), Some("612"))), t1);
            && s1 == Parsed(SensorHT(sid, Climate(3000, 215, 612), Some(t1)), None)
            && ParseHT(s1.value, Some(HTData(None, Some("220"), None)), t2)
               == Parsed(SensorHT(sid, Climate(3000, 220, 612), Some(t2)), None)
  {
    ParseFormatInt32(215);
    ParseFormatInt32(612);
    ParseFormatInt32(220);
    assert FormatInt(215) == "215" && FormatInt(612) == "612" && FormatInt(220) == "220";
  }

  /** An unparsable humidity after a good temperature: the temperature is
      stored, the humidity and the timestamp are not. */
  lemma PartialUpdate(s: SensorHT, v: Option<int>, temp: string, hum: string, now: nat)
    requires ParseInt32(temp).Ok? && ParseInt32(hum).Err?
    ensures var r := ParseHT(s, Some(HTData(v, Some(temp), Some(hum))), now);
            && r.err.Some?
            && r.value.climate == Climate(v.GetOr(s.climate.voltage), ParseInt32(temp).value, s.climate.humidity)
            && r.value.lastUpdate == s.lastUpdate
  {
  }
}
