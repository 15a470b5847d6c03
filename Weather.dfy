/** The real-time data layer: the season and fallback weather by calendar month,
    the parsed OpenWeatherMap reading, the 24-hour rainfall estimate, the mock
    tide by hour of day, the ward coordinate table, and the complete per-ward
    weather record fed to the flood models.

    The clock is a parameter (`month` in 1..12, `hour` in 0..23) and every network
    response is an input: `None` stands for a request that raised a
    `RequestException`. Values are exact reals; the source's `round(x, 2)` is not
    modelled. */
module Weather {
  import opened Wrappers
  import opened Text

  // ---------------------------------------------------------------- seasons

  datatype Season = Monsoon | Winter | Summer

  function SeasonName(s: Season): string {
    match s
    case Monsoon => "Monsoon"
    case Winter => "Winter"
    case Summer => "Summer"
  }

  /** The season of a calendar month: June to September is the monsoon,
      December to February is winter, every other month is summer. */
  function SeasonOf(month: int): (s: Season)
    ensures s == Monsoon <==> 6 <= month <= 9
    ensures s == Winter <==> month == 12 || month == 1 || month == 2
  {
    if month in {6, 7, 8, 9} then Monsoon
    else if month in {12, 1, 2} then Winter
    else Summer
  }

  ghost function MonthsOf(s: Season): set<int> {
    set m | 1 <= m <= 12 && SeasonOf(m) == s
  }

  /** The three seasons partition the twelve months into 4, 3 and 5 months. */
  lemma SeasonsPartitionYear()
    ensures MonthsOf(Monsoon) == {6, 7, 8, 9}
    ensures MonthsOf(Winter) == {12, 1, 2}
    ensures MonthsOf(Summer) == {3, 4, 5, 10, 11}
    ensures |MonthsOf(Monsoon)| + |MonthsOf(Winter)| + |MonthsOf(Summer)| == 12
  {
    assert forall m :: m in MonthsOf(Monsoon) <==> m in {6, 7, 8, 9};
    assert forall m :: m in MonthsOf(Winter) <==> m in {12, 1, 2};
    assert forall m :: m in MonthsOf(Summer) <==> m in {3, 4, 5, 10, 11};
  }

  // ------------------------------------------------------- weather readings

  /** One weather reading in the models' units (mm, degrees C, %, km/h). */
  datatype WeatherRecord = WeatherRecord(
    rainfallMm: real,
    temperatureC: real,
    humidityPct: real,
    windSpeedKmh: real,
    season: Season,
    description: string)

  /** The reading used when the weather API cannot be reached: a typical
      reading for the season of `month`. */
  function FallbackWeather(month: int): (w: WeatherRecord)
    ensures w.season == SeasonOf(month)
    ensures w.season == Monsoon ==> w.rainfallMm == 5.0 && w.temperatureC == 28.0 && w.humidityPct == 85.0
    ensures w.season == Winter ==> w.rainfallMm == 0.0 && w.temperatureC == 22.0 && w.humidityPct == 60.0
    ensures w.season == Summer ==> w.rainfallMm == 0.0 && w.temperatureC == 32.0 && w.humidityPct == 70.0
    ensures w.windSpeedKmh == 15.0
    ensures w.description == "Typical " + Lower(SeasonName(w.season)) + " weather"
  {
    var season := SeasonOf(month);
    var (rain, temp, humidity) :=
      match season
      case Monsoon => (5.0, 28.0, 85.0)
      case Winter => (0.0, 22.0, 60.0)
      case Summer => (0.0, 32.0, 70.0);
    WeatherRecord(rain, temp, humidity, 15.0, season,
                  "Typical " + Lower(SeasonName(season)) + " weather")
  }

  /** The fallback reading reports rain exactly in the monsoon months, and never
      a negative amount. */
  lemma FallbackRainOnlyInMonsoon(month: int)
    ensures FallbackWeather(month).rainfallMm >= 0.0
    ensures FallbackWeather(month).rainfallMm > 0.0 <==> 6 <= month <= 9
  {
  }

  /** The fields of an OpenWeatherMap current-weather response that are read.
      A missing `rain` object or a missing `1h` key is `None`, and likewise for
      `main.temp`, `main.humidity` and `wind.speed` (m/s). `descriptions` is the
      `weather` list, each entry's `description` key or `None`; the whole list
      is `None` when the response has no `weather` key. */
  datatype CurrentResponse = CurrentResponse(
    rain1h: Option<real>,
    temp: Option<real>,
    humidity: Option<real>,
    windSpeedMs: Option<real>,
    descriptions: Option<seq<Option<string>>>)

  /** Metres per second to kilometres per hour. */
  function KmhOfMs(speed: real): (kmh: real)
    ensures kmh / 3.6 == speed
    ensures speed >= 0.0 ==> kmh >= speed
  {
    speed * 3.6
  }

  /** Turns a response into a reading, defaulting every missing field: rain 0,
      temperature 25, humidity 70, wind 0 and an empty description. The season
      comes from the calendar. An empty `weather` list makes the source index
      past its end, which raises. */
  function ParseCurrentWeather(data: CurrentResponse, month: int): (r: Result<WeatherRecord, string>)
    ensures r.Err? <==> data.descriptions == Some([])
    ensures r.Ok? ==> r.value.rainfallMm == data.rain1h.GetOr(0.0)
    ensures r.Ok? ==> r.value.temperatureC == data.temp.GetOr(25.0)
    ensures r.Ok? ==> r.value.humidityPct == data.humidity.GetOr(70.0)
    ensures r.Ok? ==> r.value.windSpeedKmh / 3.6 == data.windSpeedMs.GetOr(0.0)
    ensures r.Ok? ==> r.value.season == SeasonOf(month)
    ensures r.Ok? ==> r.value.description == data.descriptions.GetOr([None])[0].GetOr("")
  {
    var descriptions := data.descriptions.GetOr([None]);
    if descriptions == [] then Err("IndexError: list index out of range")
    else
      Ok(WeatherRecord(
        data.rain1h.GetOr(0.0),
        data.temp.GetOr(25.0),
        data.humidity.GetOr(70.0),
        KmhOfMs(data.windSpeedMs.GetOr(0.0)),
        SeasonOf(month),
        descriptions[0].GetOr("")))
  }

  /** `WeatherService.get_current_weather`: a failed request gives the fallback
      reading; a received response is parsed, and a parse error propagates. */
  function GetCurrentWeather(response: Option<CurrentResponse>, month: int): (r: Result<WeatherRecord, string>)
    ensures response.None? ==> r == Ok(FallbackWeather(month))
    ensures response.Some? ==> r == ParseCurrentWeather(response.value, month)
    ensures r.Ok? ==> r.value.season == SeasonOf(month)
    ensures r.Err? <==> response.Some? && response.value.descriptions == Some([])
  {
    match response
    case None => Ok(FallbackWeather(month))
    case Some(data) => ParseCurrentWeather(data, month)
  }

  // ------------------------------------------------------- 24-hour rainfall

  /** The number of forecast slots (3 hours each) that make up 24 hours. */
  const ForecastSlots: nat := 8

  /** Sum of the `rain.3h` values of forecast items, a missing value counting 0. */
  function SumRain(items: seq<Option<real>>): real {
    if items == [] then 0.0
    else SumRain(items[..|items| - 1]) + items[|items| - 1].GetOr(0.0)
  }

  /** The items `data.get('list', [])[:8]` keeps. */
  function Window(items: seq<Option<real>>): (w: seq<Option<real>>)
    ensures |w| <= ForecastSlots && |w| <= |items|
    ensures w == items[..|w|]
    ensures |w| == ForecastSlots || w == items
  {
    if |items| <= ForecastSlots then items else items[..ForecastSlots]
  }

  /** The 24-hour estimate: the current rain plus the first eight forecast
      slots, or just the current rain when the forecast request failed. A
      response without a `list` is the empty list. */
  function Rainfall24Total(currentRain: real, forecast: Option<seq<Option<real>>>): real {
    match forecast
    case None => currentRain
    case Some(items) => currentRain + SumRain(Window(items))
  }

  /** `WeatherService.get_24hr_rainfall`, given the current rain it read and the
      forecast response. */
  method Get24hrRainfall(currentRain: real, forecast: Option<seq<Option<real>>>) returns (total: real)
    ensures total == Rainfall24Total(currentRain, forecast)
  {
    total := currentRain;
    if forecast.None? {
      return;
    }
    var items := Window(forecast.value);
    var i := 0;
    while i < |items|
      invariant 0 <= i <= |items|
      invariant total == currentRain + SumRain(items[..i])
    {
      assert items[..i + 1][..i] == items[..i];
      total := total + items[i].GetOr(0.0);
      i := i + 1;
    }
    assert items[..i] == items;
  }

  predicate NonNegativeSlots(items: seq<Option<real>>) {
    forall k :: 0 <= k < |items| ==> items[k].GetOr(0.0) >= 0.0
  }

  lemma {:induction false} SumRainNonNegative(items: seq<Option<real>>)
    requires NonNegativeSlots(items)
    ensures SumRain(items) >= 0.0
  {
    if items != [] {
      var front := items[..|items| - 1];
      assert NonNegativeSlots(front) by {
        forall k | 0 <= k < |front| ensures front[k].GetOr(0.0) >= 0.0 {
          assert front[k] == items[k];
        }
      }
      SumRainNonNegative(front);
    }
  }

  /** With no negative forecast value the estimate never drops below the current
      rain, whether or not the forecast request succeeded. */
  lemma RainfallAtLeastCurrent(currentRain: real, forecast: Option<seq<Option<real>>>)
    requires forecast.Some? ==> NonNegativeSlots(forecast.value)
    ensures Rainfall24Total(currentRain, forecast) >= currentRain
  {
    if forecast.Some? {
      var w := Window(forecast.value);
      assert NonNegativeSlots(w) by {
        forall k | 0 <= k < |w| ensures w[k].GetOr(0.0) >= 0.0 {
          assert w[k] == forecast.value[k];
        }
      }
      SumRainNonNegative(w);
    }
  }

  /** Forecast slots after the eighth do not change the estimate. */
  lemma LaterSlotsIgnored(currentRain: real, items: seq<Option<real>>, later: seq<Option<real>>)
    requires |items| >= ForecastSlots
    ensures Rainfall24Total(currentRain, Some(items + later)) == Rainfall24Total(currentRain, Some(items))
  {
    assert Window(items + later) == Window(items);
  }

  // ------------------------------------------------------------------- tide

  /** `TideService.get_current_tide_level`, a mock tide by hour of day: high
      (3.5 m) at 2 and 14 h, low (0.8 m) at 8 and 20 h, otherwise
      2.0 + 0.3 * (hour mod 6). */
  function TideLevel(hour: nat): (t: real)
    ensures 0.8 <= t <= 3.5
  {
    if hour in {2, 14} then 3.5 + (hour % 2) as real * 0.5
    else if hour in {8, 20} then 0.8 + (hour % 2) as real * 0.3
    else 2.0 + (hour % 6) as real * 0.3
  }

  /** The tide is below 2 m exactly at the two low-tide hours, where it is
      0.8 m, and reaches its
      3.5 m maximum at the two high-tide hours and also at 5, 11, 17 and 23 h,
      where the interpolation `2.0 + 0.3 * 5` meets it. */
  lemma TideExtremes(hour: nat)
    requires hour < 24
    ensures TideLevel(hour) < 2.0 <==> hour == 8 || hour == 20
    ensures hour == 8 || hour == 20 ==> TideLevel(hour) == 0.8
    ensures TideLevel(hour) == 3.5 <==> hour in {2, 5, 11, 14, 17, 23}
  {
  }

  /** `TideService.get_high_low_tide_today`: fixed daily extremes. */
  const HighTideM: real := 4.2
  const LowTideM: real := 0.6

  // ------------------------------------------------------------------ wards

  datatype WardInfo = WardInfo(code: string, lat: real, lon: real, name: string)

  /** The configured wards of Mumbai, in the order the source lists them. */
  const WardTable: seq<WardInfo> := [
    WardInfo("A", 18.9067, 72.8147, "Colaba"),
    WardInfo("B", 18.9220, 72.8347, "Fort"),
    WardInfo("C", 18.9388, 72.8354, "Kalbadevi"),
    WardInfo("D", 18.9515, 72.8143, "Girgaon"),
    WardInfo("E", 18.9647, 72.8258, "Byculla"),
    WardInfo("F/N", 19.0138, 72.8452, "Parel"),
    WardInfo("F/S", 19.0008, 72.8300, "Lower Parel"),
    WardInfo("G/N", 19.0176, 72.8562, "Dadar"),
    WardInfo("G/S", 19.0330, 72.8570, "Mahim"),
    WardInfo("H/E", 19.0596, 72.8656, "Bandra East"),
    WardInfo("H/W", 19.0596, 72.8295, "Bandra West"),
    WardInfo("K/E", 19.1136, 72.8697, "Andheri East"),
    WardInfo("K/W", 19.1197, 72.8464, "Andheri West"),
    WardInfo("L", 19.0728, 72.8826, "Kurla"),
    WardInfo("M/E", 19.0330, 72.8990, "Chembur"),
    WardInfo("M/W", 19.0270, 72.9500, "Trombay"),
    WardInfo("N", 19.0896, 72.9081, "Ghatkopar"),
    WardInfo("P/N", 19.1872, 72.8495, "Malad"),
    WardInfo("P/S", 19.2094, 72.8526, "Kandivali"),
    WardInfo("R/C", 19.2307, 72.8567, "Borivali"),
    WardInfo("R/N", 19.2544, 72.8656, "Dahisar"),
    WardInfo("R/S", 19.2094, 72.8700, "Kandivali East"),
    WardInfo("S", 19.1450, 72.9342, "Bhandup"),
    WardInfo("T", 19.1728, 72.9342, "Mulund")
  ]

  /** Mumbai's centre, used for a ward code that is not configured. */
  const DefaultLat: real := 19.0760
  const DefaultLon: real := 72.8777

  /** The first table entry with the given code, if any. */
  function FindWard(table: seq<WardInfo>, code: string): (r: Option<WardInfo>)
    ensures r.None? <==> forall i :: 0 <= i < |table| ==> table[i].code != code
    ensures forall i :: EntryFor(table, code, i) ==> r == Some(table[i])
  {
    if table == [] then None
    else if table[0].code == code then Some(table[0])
    else
      var r := FindWard(table[1..], code);
      assert forall i :: EntryFor(table, code, i) ==> EntryFor(table[1..], code, i - 1);
      r
  }

  predicate Configured(wards: seq<WardInfo>, code: string) {
    exists i :: 0 <= i < |wards| && wards[i].code == code
  }

  /** No code appears twice, as in the dictionary the table stands for. */
  predicate DistinctCodes(wards: seq<WardInfo>) {
    forall i, j :: 0 <= i < j < |wards| ==> wards[i].code != wards[j].code
  }

  /** `i` is the entry a dictionary lookup of `code` finds: the first one. */
  predicate EntryFor(wards: seq<WardInfo>, code: string, i: int) {
    0 <= i < |wards| && wards[i].code == code && forall j :: 0 <= j < i ==> wards[j].code != code
  }

  datatype Location = Location(lat: real, lon: real, name: string)

  /** The coordinates and name of a ward: the configured ones for a known code
      (case-sensitive), otherwise Mumbai's centre and the name "Ward <code>". */
  function WardLocation(wards: seq<WardInfo>, code: string): (loc: Location)
    ensures forall i :: EntryFor(wards, code, i) ==> loc == Location(wards[i].lat, wards[i].lon, wards[i].name)
    ensures !Configured(wards, code) ==> loc == Location(DefaultLat, DefaultLon, "Ward " + code)
  {
    match FindWard(wards, code)
    case Some(w) => Location(w.lat, w.lon, w.name)
    case None => Location(DefaultLat, DefaultLon, "Ward " + code)
  }

  // ------------------------------------------------------ complete records

  /** `RealTimeDataService`: whether its `WeatherService` could be built (an
      OpenWeatherMap API key was configured), and its ward coordinate table. */
  datatype DataService = DataService(weatherApi: bool, wards: seq<WardInfo>)

  /** Building the service: the weather client exists exactly when an API key
      is configured (otherwise its `ValueError` is caught), and the ward table
      holds the 24 Mumbai wards, all inside the city's bounding box. */
  function NewDataService(apiKeyConfigured: bool): (s: DataService)
    ensures s.weatherApi == apiKeyConfigured
    ensures |s.wards| == 24
    ensures forall i :: 0 <= i < |s.wards| ==>
              18.9 <= s.wards[i].lat <= 19.3 && 72.8 <= s.wards[i].lon <= 73.0
  {
    DataService(apiKeyConfigured, WardTable)
  }


  /** What the network answers for one ward: the current-weather response (both
      requests for it see the same answer) and the forecast response. */
  datatype WardFeed = WardFeed(current: Option<CurrentResponse>, forecast: Option<seq<Option<real>>>)

  /** The record handed to the flood models. */
  datatype CompleteWeather = CompleteWeather(
    weather: WeatherRecord,
    rainfall24hr: real,
    tideLevelM: real,
    highTideM: real,
    lowTideM: real,
    wardCode: string,
    wardName: string,
    lat: real,
    lon: real)

  /** `RealTimeDataService.get_complete_weather_data` for `code` at the given
      month and hour. Without a weather API, or when reading the current weather
      raises, the seasonal fallback is used and its rain doubles as the 24-hour
      rainfall. */
  function CompleteWeatherData(service: DataService, code: string, feed: WardFeed, month: int, hour: nat): (d: CompleteWeather)
    ensures d.wardCode == code
    ensures d.highTideM == 4.2 && d.lowTideM == 0.6
    ensures d.tideLevelM == TideLevel(hour) && 0.8 <= d.tideLevelM <= 3.5
    ensures Location(d.lat, d.lon, d.wardName) == WardLocation(service.wards, code)
    ensures d.weather.season == SeasonOf(month)
    ensures !service.weatherApi || GetCurrentWeather(feed.current, month).Err? ==>
              d.weather == FallbackWeather(month) && d.rainfall24hr == d.weather.rainfallMm
    ensures service.weatherApi && GetCurrentWeather(feed.current, month).Ok? ==>
              d.weather == GetCurrentWeather(feed.current, month).value &&
              d.rainfall24hr == Rainfall24Total(d.weather.rainfallMm, feed.forecast)
  {
    var loc := WardLocation(service.wards, code);
    var (current, rainfall24) :=
      if service.weatherApi then
        match GetCurrentWeather(feed.current, month)
        case Ok(w) => (w, Rainfall24Total(w.rainfallMm, feed.forecast))
        case Err(_) => (FallbackWeather(month), FallbackWeather(month).rainfallMm)
      else (FallbackWeather(month), FallbackWeather(month).rainfallMm);
    CompleteWeather(current, rainfall24, TideLevel(hour), HighTideM, LowTideM, code, loc.name, loc.lat, loc.lon)
  }

  /** A ward's complete record as a function of its code. */
  function RecordOf(service: DataService, feeds: string -> WardFeed, month: int, hour: nat): string -> CompleteWeather {
    code => CompleteWeatherData(service, code, feeds(code), month, hour)
  }

  /** The all-wards entries for a list of wards, in list order. */
  function WardEntries(wards: seq<WardInfo>, record: string -> CompleteWeather): seq<(string, CompleteWeather)> {
    if wards == [] then []
    else WardEntries(wards[..|wards| - 1], record) + [(wards[|wards| - 1].code, record(wards[|wards| - 1].code))]
  }

  /** Each ward yields one entry, keyed by its own code and holding its record. */
  lemma {:induction false} WardEntriesKeyed(wards: seq<WardInfo>, record: string -> CompleteWeather)
    ensures var all := WardEntries(wards, record);
      |all| == |wards| &&
      forall i :: 0 <= i < |all| ==> all[i] == (wards[i].code, record(wards[i].code))
  {
    if wards != [] {
      WardEntriesKeyed(wards[..|wards| - 1], record);
    }
  }

  /** The all-wards table as a function: every ward of the service's table, in
      table order, paired with its complete record. */
  function AllWardsWeather(service: DataService, feeds: string -> WardFeed, month: int, hour: nat): (all: seq<(string, CompleteWeather)>)
    ensures |all| == |service.wards|
    ensures forall i :: 0 <= i < |all| ==> all[i].0 == service.wards[i].code && all[i].1.wardCode == all[i].0
    ensures forall i :: 0 <= i < |all| ==> all[i].1 == CompleteWeatherData(service, all[i].0, feeds(all[i].0), month, hour)
  {
    WardEntriesKeyed(service.wards, RecordOf(service, feeds, month, hour));
    WardEntries(service.wards, RecordOf(service, feeds, month, hour))
  }

  /** `RealTimeDataService.get_weather_for_all_wards`: fills the dictionary one
      configured ward at a time (the dictionary is kept as its insertion-ordered
      list of entries). Building one ward's record cannot raise, so no ward is
      skipped. */
  method GetWeatherForAllWards(service: DataService, feeds: string -> WardFeed, month: int, hour: nat)
    returns (all: seq<(string, CompleteWeather)>)
    ensures all == AllWardsWeather(service, feeds, month, hour)
  {
    all := CollectRecords(service.wards, RecordOf(service, feeds, month, hour));
  }

  /** The loop of `get_weather_for_all_wards`, over any per-ward record. */
  method CollectRecords(wards: seq<WardInfo>, record: string -> CompleteWeather)
    returns (all: seq<(string, CompleteWeather)>)
    ensures all == WardEntries(wards, record)
  {
    all := [];
    var i := 0;
    while i < |wards|
      invariant 0 <= i <= |wards|
      invariant all == WardEntries(wards[..i], record)
    {
      assert wards[..i + 1][..i] == wards[..i];
      var code := wards[i].code;
      all := all + [(code, record(code))];
      i := i + 1;
    }
    assert wards[..i] == wards;
  }

  /** The keys of the all-wards result are exactly the service's ward codes,
      each once when the table has no repeated code. */
  lemma AllWardsKeysAreConfigured(service: DataService, feeds: string -> WardFeed, month: int, hour: nat)
    ensures var all := AllWardsWeather(service, feeds, month, hour);
      (forall i :: 0 <= i < |all| ==> Configured(service.wards, all[i].0)) &&
      (forall w :: w in service.wards ==> exists i :: 0 <= i < |all| && all[i].0 == w.code) &&
      (DistinctCodes(service.wards) ==> forall i, j :: 0 <= i < j < |all| ==> all[i].0 != all[j].0)
  {
    KeyedByWards(service.wards, AllWardsWeather(service, feeds, month, hour));
  }

  /** Entries keyed position by position by the wards' codes have exactly the
      configured codes as keys. */
  lemma KeyedByWards(wards: seq<WardInfo>, all: seq<(string, CompleteWeather)>)
    requires |all| == |wards| && forall i :: 0 <= i < |all| ==> all[i].0 == wards[i].code
    ensures forall i :: 0 <= i < |all| ==> Configured(wards, all[i].0)
    ensures forall w :: w in wards ==> exists i :: 0 <= i < |all| && all[i].0 == w.code
    ensures DistinctCodes(wards) ==> forall i, j :: 0 <= i < j < |all| ==> all[i].0 != all[j].0
  {
    forall k | 0 <= k < |all| ensures Configured(wards, all[k].0) {
      assert wards[k].code == all[k].0;
    }
    forall w | w in wards ensures exists i :: 0 <= i < |all| && all[i].0 == w.code {
      var i :| 0 <= i < |wards| && wards[i] == w;
      assert all[i].0 == w.code;
    }
  }
}
