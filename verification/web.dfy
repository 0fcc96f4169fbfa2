/** The web front: the sensor listing built from the device capabilities, the
    battery percentage, and the weather view with its image paths. */
module Web {
  import opened Wrappers
  import opened Device
  import opened Gateway
  import XiaomiTH
  import W = Weather

  const MaxVoltage: real := 3.10
  const MinVoltage: real := 2.82
  const VoltageScale: real := MaxVoltage - MinVoltage

  /** `batteryLevelFromVoltage`: full at or above 3.10 V, empty at or below
      2.82 V, linear in between with the fraction cut to a whole percentage. */
  function BatteryLevel(volts: real): (pct: nat)
    ensures pct <= 100
    ensures volts >= MaxVoltage <==> pct == 100
    ensures volts <= MinVoltage ==> pct == 0
    ensures MinVoltage < volts < MaxVoltage ==>
              pct as real <= (volts - MinVoltage) / VoltageScale * 100.0 < pct as real + 1.0
  {
    if volts >= MaxVoltage then 100
    else if volts <= MinVoltage then 0
    else ((volts - MinVoltage) / VoltageScale * 100.0).Floor
  }

  /** A higher voltage never shows a lower percentage. */
  lemma BatteryLevelMonotone(a: real, b: real)
    requires a <= b
    ensures BatteryLevel(a) <= BatteryLevel(b)
  {
    if MinVoltage < a && b < MaxVoltage {
      var x := (a - MinVoltage) / VoltageScale * 100.0;
      var y := (b - MinVoltage) / VoltageScale * 100.0;
      assert x <= y;
    }
  }

  /** What a listed object offers, one field per interface of the device
      package: `Device` (SID and last update), `BatteryPowered`, `Thermometer`,
      `Hygrometer`, `Barometer`; None where the interface is not implemented. */
  datatype Identity = Identity(sid: string, lastUpdate: Instant)
  datatype Item = Item(device: Option<Identity>, batteryVoltage: Option<real>, temperature: Option<real>,
                       humidity: Option<real>, pressure: Option<real>)

  /** A gateway child as the web front sees it: millivolts become volts and
      hundredths become units; only the weather station is a barometer. */
  function FromChild(c: Child): (it: Item)
    ensures it.device == Some(Identity(c.Sid(), LastUpdateAt(if c.HT? then c.sensor.lastUpdate else c.station.lastUpdate)))
    ensures var cl := if c.HT? then c.sensor.climate else c.station.climate;
            && it.batteryVoltage == Some(cl.voltage as real / 1000.0)
            && it.temperature == Some(cl.temperature as real / 100.0)
            && it.humidity == Some(cl.humidity as real / 100.0)
    ensures it.pressure.Some? <==> c.Weather?
    ensures c.Weather? ==> it.pressure == Some(c.station.pressure as real)
  {
    match c
    case HT(s) =>
      Item(Some(Identity(s.sid, LastUpdateAt(s.lastUpdate))), Some(s.climate.voltage as real / 1000.0),
           Some(s.climate.temperature as real / 100.0), Some(s.climate.humidity as real / 100.0), None)
    case Weather(w) =>
      Item(Some(Identity(w.sid, LastUpdateAt(w.lastUpdate))), Some(w.climate.voltage as real / 1000.0),
           Some(w.climate.temperature as real / 100.0), Some(w.climate.humidity as real / 100.0),
           Some(w.pressure as real))
  }

  /** The listed values lose nothing: volts times 1000 and units times 100 give
      back the stored millivolts and hundredths. */
  lemma FromChildRecoversReadings(c: Child)
    ensures var it := FromChild(c);
            var cl := if c.HT? then c.sensor.climate else c.station.climate;
            && it.batteryVoltage.value * 1000.0 == cl.voltage as real
            && it.temperature.value * 100.0 == cl.temperature as real
            && it.humidity.value * 100.0 == cl.humidity as real
  {
  }

  /** The Bluetooth thermometer is a thermometer and a hygrometer but not a
      `Device` (it has no SID), so the listing skips it. */
  function FromThermometer(x: XiaomiTH.Sensor): (it: Item)
    ensures it.device.None?
    ensures it.temperature == Some(x.data.temperature) && it.humidity == Some(x.data.humidity)
  {
    Item(None, None, Some(x.data.temperature), Some(x.data.humidity), None)
  }

  /** One entry of the `/sensors` listing (its age in seconds is not modelled). */
  datatype Entry = Entry(sid: string, batteryPercent: Option<nat>, temperature: Option<real>,
                         humidity: Option<real>, pressure: Option<real>)

  function MapOption(o: Option<real>, f: real -> nat): (r: Option<nat>)
    ensures r.Some? <==> o.Some?
    ensures r.Some? ==> r.value == f(o.value)
  {
    match o
    case None => None
    case Some(v) => Some(f(v))
  }

  /** `fillUpSensor`: each optional field is present iff the object offers the
      matching interface; the battery shows as a percentage. */
  function FillUpSensor(it: Item, sid: string): (e: Entry)
    ensures e.sid == sid
    ensures e.batteryPercent.Some? <==> it.batteryVoltage.Some?
    ensures e.batteryPercent.Some? ==> e.batteryPercent.value == BatteryLevel(it.batteryVoltage.value)
    ensures e.temperature == it.temperature && e.humidity == it.humidity && e.pressure == it.pressure
  {
    Entry(sid, MapOption(it.batteryVoltage, BatteryLevel), it.temperature, it.humidity, it.pressure)
  }

  /** The listing as a recursive definition: one entry per `Device`, in order. */
  function Listing(items: seq<Item>): seq<Entry> {
    if items == [] then []
    else
      var head := if items[0].device.Some? then [FillUpSensor(items[0], items[0].device.value.sid)] else [];
      head + Listing(items[1..])
  }

  function CountDevices(items: seq<Item>): nat {
    if items == [] then 0 else (if items[0].device.Some? then 1 else 0) + CountDevices(items[1..])
  }

  /** `sensorsHandler`'s loop: objects that are not a `Device` are skipped. */
  method SensorsHandler(items: seq<Item>) returns (entries: seq<Entry>)
    ensures entries == Listing(items)
    ensures |entries| == CountDevices(items) <= |items|
  {
    entries := [];
    var i := 0;
    while i < |items|
      invariant i <= |items|
      invariant entries + Listing(items[i..]) == Listing(items)
    {
      assert items[i..][1..] == items[i + 1..];
      if items[i].device.Some? {
        entries := entries + [FillUpSensor(items[i], items[i].device.value.sid)];
      }
      i := i + 1;
    }
    assert items[i..] == [];
    ListingLength(items);
  }

  /** One entry per `Device` object. */
  lemma {:induction false} ListingLength(items: seq<Item>)
    ensures |Listing(items)| == CountDevices(items) <= |items|
  {
    if items != [] {
      ListingLength(items[1..]);
    }
  }

  /** When every object is a `Device` (as the gateway's children are) the
      listing keeps them all, in order, each filled from its own capabilities. */
  lemma {:induction false} ListingAllDevices(items: seq<Item>)
    requires forall i :: 0 <= i < |items| ==> items[i].device.Some?
    ensures |Listing(items)| == |items|
    ensures forall i :: 0 <= i < |items| ==> Listing(items)[i] == FillUpSensor(items[i], items[i].device.value.sid)
  {
    if items != [] {
      ListingAllDevices(items[1..]);
    }
  }

  /** The gateway's collection is listed completely, in collection order, each
      sensor with its own SID and readings. */
  lemma GatewayListing(children: seq<Child>, items: seq<Item>)
    requires |items| == |children|
    requires forall i :: 0 <= i < |children| ==> items[i] == FromChild(children[i])
    ensures |Listing(items)| == |children|
    ensures forall i :: 0 <= i < |children| ==> Listing(items)[i] == FillUpSensor(items[i], children[i].Sid())
  {
    ListingAllDevices(items);
  }

  const ImagePrefix: string := "/img/weather/64x64/"
  const ImageSuffix: string := ".png"

  /** A weather image path for a phase (`day` or `night`) and an image code. */
  function ImagePath(phase: string, code: string): (p: string)
    ensures |p| == |ImagePrefix| + |phase| + 1 + |code| + |ImageSuffix|
    ensures p[..|ImagePrefix|] == ImagePrefix && p[|p| - |ImageSuffix|..] == ImageSuffix
  {
    ImagePrefix + phase + "/" + code + ImageSuffix
  }

  function Phase(isDay: bool): string {
    if isDay then "day" else "night"
  }

  /** Reading a path back: the phase, told apart by its first letter, and the
      code between the phase's slash and the suffix. */
  function PathPhase(p: string): (isDay: bool) {
    |p| > |ImagePrefix| && p[|ImagePrefix|] == 'd'
  }

  function PathCode(p: string): (code: string) {
    var start := |ImagePrefix| + |Phase(PathPhase(p))| + 1;
    if start + |ImageSuffix| <= |p| then p[start..|p| - |ImageSuffix|] else ""
  }

  /** The path determines both the phase and the code, so distinct images get
      distinct paths. */
  lemma ImagePathRoundTrip(isDay: bool, code: string)
    ensures var p := ImagePath(Phase(isDay), code);
            PathPhase(p) == isDay && PathCode(p) == code
  {
    var p := ImagePath(Phase(isDay), code);
    assert p[|ImagePrefix|] == Phase(isDay)[0];
    var start := |ImagePrefix| + |Phase(isDay)| + 1;
    assert p[start..|p| - |ImageSuffix|] == code;
  }

  /** The `/weather` view of the current weather: the image by phase, the
      rest copied. */
  datatype CurrentView = CurrentView(
    conditionText: string, conditionImage: string, temperature: real, wind: real, gust: real,
    windDegree: int, windDir: string, pressure: nat, precipitation: real, humidity: nat,
    cloudPercent: int, feelsLike: real, visibility: real, uv: real)

  function CurrentWeatherView(w: W.CurrentWeather): (v: CurrentView)
    ensures v.conditionImage == ImagePath(Phase(w.isDay), w.conditionImageCode)
    ensures PathPhase(v.conditionImage) == w.isDay && PathCode(v.conditionImage) == w.conditionImageCode
    ensures v.conditionText == w.conditionText && v.temperature == w.temperature
    ensures v.wind == w.wind && v.gust == w.gust && v.windDegree == w.windDegree && v.windDir == w.windDir
    ensures v.pressure == w.pressure && v.precipitation == w.precipitation && v.humidity == w.humidity
    ensures v.cloudPercent == w.cloudPercent && v.feelsLike == w.feelsLike
    ensures v.visibility == w.visibility && v.uv == w.uv
  {
    ImagePathRoundTrip(w.isDay, w.conditionImageCode);
    CurrentView(w.conditionText, ImagePath(Phase(w.isDay), w.conditionImageCode), w.temperature, w.wind,
                w.gust, w.windDegree, w.windDir, w.pressure, w.precipitation, w.humidity, w.cloudPercent,
                w.feelsLike, w.visibility, w.uv)
  }

  /** The `/weather` view of one forecast day: always the day image; the date
      is not part of the view. */
  datatype ForecastView = ForecastView(
    conditionText: string, conditionImage: string, maxTemp: real, minTemp: real, avgTemp: real,
    maxWind: real, totalPrecipitation: real, totalSnow: real, avgVis: real, avgHumidity: real,
    willItRain: bool, chanceOfRain: int, willItSnow: bool, chanceOfSnow: int, uv: real)

  function ForecastItemView(f: W.ForecastItem): (v: ForecastView)
    ensures v.conditionImage == ImagePath(Phase(true), f.conditionImageCode)
    ensures PathPhase(v.conditionImage) && PathCode(v.conditionImage) == f.conditionImageCode
    ensures v.conditionText == f.conditionText && v.maxTemp == f.maxTemp && v.minTemp == f.minTemp
    ensures v.avgTemp == f.avgTemp && v.maxWind == f.maxWind && v.totalPrecipitation == f.totalPrecipitation
    ensures v.totalSnow == f.totalSnow && v.avgVis == f.avgVis && v.avgHumidity == f.avgHumidity
    ensures v.willItRain == f.willItRain && v.chanceOfRain == f.chanceOfRain
    ensures v.willItSnow == f.willItSnow && v.chanceOfSnow == f.chanceOfSnow && v.uv == f.uv
  {
    ImagePathRoundTrip(true, f.conditionImageCode);
    ForecastView(f.conditionText, ImagePath(Phase(true), f.conditionImageCode), f.maxTemp, f.minTemp,
                 f.avgTemp, f.maxWind, f.totalPrecipitation, f.totalSnow, f.avgVis, f.avgHumidity,
                 f.willItRain, f.chanceOfRain, f.willItSnow, f.chanceOfSnow, f.uv)
  }

  /** `weatherForecast`: one view per forecast item, in order. */
  method WeatherForecast(forecast: seq<W.ForecastItem>) returns (views: seq<ForecastView>)
    ensures |views| == |forecast|
    ensures forall i :: 0 <= i < |forecast| ==> views[i] == ForecastItemView(forecast[i])
  {
    views := [];
    for i := 0 to |forecast|
      invariant |views| == i
      invariant forall k :: 0 <= k < i ==> views[k] == ForecastItemView(forecast[k])
    {
      views := views + [ForecastItemView(forecast[i])];
    }
  }
}
