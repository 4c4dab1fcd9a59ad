/**
 * The weather engine (backend/weather.py): four time-to-live caches in front of the
 * weather provider (geocoding, current conditions, daily forecast, air quality), the
 * weather packet built from them, and its one-line summary for the prompt.
 *
 * The provider's HTTP replies are values (`Reply`), the clock is the `now` parameter,
 * and number and date rendering are functions given by the caller.
 */
module Weather {
  import opened Wrappers
  import opened PyText
  import opened Forecast

  // ---------------------------------------------------------------------------
  // Data
  // ---------------------------------------------------------------------------

  /** Seconds an entry of each cache stays usable (backend/weather.py:27-30). */
  const GeoTtl: real := 86400.0
  const CurrentTtl: real := 300.0
  const ForecastTtl: real := 600.0
  const AqiTtl: real := 3600.0

  /** The first geocoding match. */
  datatype Geo = Geo(name: Option<string>, lat: Option<real>, lon: Option<real>,
                     country: Option<string>, state: Option<string>)

  /** The current-conditions fields read from the provider's reply. */
  datatype Observation = Observation(name: Option<string>, description: Option<string>,
                                     tempC: Option<real>, feelsLikeC: Option<real>,
                                     humidity: Option<real>, pressure: Option<real>,
                                     windSpeed: Option<real>, cloudsPct: Option<real>)

  /** The provider's reply body, kept whole under `raw` (as its JSON text). */
  datatype RawBody = RawBody(text: string)

  /** A current-conditions reply: the body `d` and the fields the code reads from it. */
  datatype CurrentReply = CurrentReply(raw: RawBody, reading: Observation)

  /** The `res` dict of backend/weather.py:107-118: provider, the whole reply, and the fields read. */
  datatype Current = Current(provider: string, raw: RawBody, reading: Observation)

  const ProviderName := "openweathermap"

  datatype AirQuality = AirQuality(aqiIndex: Option<int>, components: map<string, real>)

  datatype Packet = Packet(location: string, country: Option<string>, state: Option<string>,
                           lat: real, lon: real, current: Option<Current>,
                           forecast: Option<seq<DailyForecast>>, aqi: Option<AirQuality>,
                           fetchedAt: real)

  /** An HTTP call to the provider: it raised, or it answered with a status and a body. */
  datatype Reply<T> = Raised | Answered(status: int, body: T)

  /** What the provider would answer to each request. */
  datatype Provider = Provider(geocode: string -> Reply<seq<Geo>>,
                               current: (real, real) -> Reply<CurrentReply>,
                               forecast: (real, real) -> Reply<seq<Item>>,
                               air: (real, real) -> Reply<seq<AirQuality>>)

  /** `top = data[0]` when the call succeeded with a non-empty list (backend/weather.py:60-74). */
  function GeoFromReply(r: Reply<seq<Geo>>): Option<Geo> {
    if r.Answered? && r.status == 200 && r.body != [] then Some(r.body[0]) else None
  }

  function CurrentFromReply(r: Reply<CurrentReply>): Option<Current> {
    if r.Answered? && r.status == 200 then Some(Current(ProviderName, r.body.raw, r.body.reading)) else None
  }

  /**
   * The forecast list of a successful reply, each item with the timestamp `gmtime`
   * sees: an item without `dt` reads the clock, here `now` in whole seconds.
   */
  function SamplesFromReply(r: Reply<seq<Item>>, now: real): Option<seq<Sample>> {
    if r.Answered? && r.status == 200 then Some(Stamped(r.body, now.Floor)) else None
  }

  /** `d["list"][0]` when the call succeeded with a non-empty list (backend/weather.py:211-226). */
  function AqiFromReply(r: Reply<seq<AirQuality>>): Option<AirQuality> {
    if r.Answered? && r.status == 200 && r.body != [] then Some(r.body[0]) else None
  }

  // ---------------------------------------------------------------------------
  // Cache keys
  // ---------------------------------------------------------------------------

  /** `location.strip().lower()` */
  function GeoKey(location: string): string {
    Lower(Strip(location))
  }

  /** A coordinate to four decimals, as `f"{x:.4f}"` identifies it (rounded half up). */
  function Round4(x: real): int {
    (x * 10000.0 + 0.5).Floor
  }

  datatype CoordKey = CoordKey(lat: int, lon: int)

  function CoordOf(lat: real, lon: real): CoordKey {
    CoordKey(Round4(lat), Round4(lon))
  }

  /** The forecast key also records how many days were asked for. */
  datatype ForecastKey = ForecastKey(coord: CoordKey, days: int)

  /** A geocoding key is already normalised. */
  lemma GeoKeyIdempotent(location: string)
    ensures GeoKey(GeoKey(location)) == GeoKey(location)
  {
    StripLowerCommute(Strip(location));
    StripIdempotent(location);
    LowerIdempotent(Strip(location));
  }

  /** Queries differing only in letter case or surrounding blanks share one geocoding entry. */
  lemma GeoKeyIgnoresCaseAndBlanks(location: string, pre: string, post: string)
    requires AllSpace(pre) && AllSpace(post)
    ensures GeoKey(pre + location + post) == GeoKey(location)
    ensures GeoKey(Lower(location)) == GeoKey(location)
  {
    StripPadded(pre, location, post);
    StripLowerCommute(location);
    LowerIdempotent(Strip(location));
  }

  // ---------------------------------------------------------------------------
  // A time-to-live cache step
  // ---------------------------------------------------------------------------

  datatype Entry<V> = Entry(value: V, fetchedAt: real)

  /** The cached value for `key`, if it was fetched less than `ttl` seconds before `now`. */
  function Fresh<K, V>(cache: map<K, Entry<V>>, key: K, now: real, ttl: real): (hit: Option<V>)
    ensures hit.Some? <==> key in cache && now - cache[key].fetchedAt < ttl
    ensures hit.Some? ==> hit.value == cache[key].value
  {
    if key in cache && now - cache[key].fetchedAt < ttl then Some(cache[key].value) else None
  }

  /** What a cache-checked fetcher returns: nothing without an API key, else a fresh entry, else the fetched value. */
  function Served<K, V>(enabled: bool, cache: map<K, Entry<V>>, key: K, now: real, ttl: real,
                        fetched: Option<V>): Option<V> {
    if !enabled then None
    else if Fresh(cache, key, now, ttl).Some? then Fresh(cache, key, now, ttl)
    else fetched
  }

  /** The cache after a fetcher ran: written only when a value was actually fetched. */
  function Stored<K, V>(enabled: bool, cache: map<K, Entry<V>>, key: K, now: real, ttl: real,
                        fetched: Option<V>): map<K, Entry<V>> {
    if !enabled || Fresh(cache, key, now, ttl).Some? || fetched.None? then cache
    else cache[key := Entry(fetched.value, now)]
  }

  /** Without a fetched value (no key, a failed call, an empty answer) the cache is unchanged. */
  lemma FailureKeepsCache<K, V>(enabled: bool, cache: map<K, Entry<V>>, key: K, now: real, ttl: real)
    ensures Stored(enabled, cache, key, now, ttl, None) == cache
    ensures Fresh(cache, key, now, ttl).None? ==> Served(enabled, cache, key, now, ttl, None).None?
  {
  }

  /** A fetcher writes at most its own key, stamped `now`; every other entry is untouched. */
  lemma StoreTouchesOnlyKey<K, V>(enabled: bool, cache: map<K, Entry<V>>, key: K, now: real, ttl: real,
                                  fetched: Option<V>, other: K)
    requires other != key
    ensures other in Stored(enabled, cache, key, now, ttl, fetched) <==> other in cache
    ensures other in cache ==> Stored(enabled, cache, key, now, ttl, fetched)[other] == cache[other]
    ensures key in Stored(enabled, cache, key, now, ttl, fetched) && !(key in cache) ==>
              fetched.Some? && Stored(enabled, cache, key, now, ttl, fetched)[key] == Entry(fetched.value, now)
  {
  }

  /** An entry exactly `ttl` seconds old is stale: the comparison is strict. */
  lemma ExpiryIsStrict<K, V>(enabled: bool, cache: map<K, Entry<V>>, key: K, now: real, ttl: real,
                             fetched: Option<V>)
    requires key in cache && now - cache[key].fetchedAt == ttl
    ensures Served(enabled, cache, key, now, ttl, fetched) == if enabled then fetched else None
  {
  }

  /**
   * After a value is fetched and stored at time `t`, a call for the same key before
   * `t + ttl` returns that value without using the provider's answer.
   */
  lemma StoredValueServedUntilExpiry<K, V>(cache: map<K, Entry<V>>, key: K, t: real, ttl: real,
                                           v: V, later: real, fetched: Option<V>)
    requires Fresh(cache, key, t, ttl).None?
    requires t <= later < t + ttl
    ensures Served(true, Stored(true, cache, key, t, ttl, Some(v)), key, later, ttl, fetched) == Some(v)
  {
  }

  // ---------------------------------------------------------------------------
  // Formatting a packet (format_packet_for_prompt)
  // ---------------------------------------------------------------------------

  function DigitChar(d: int): char
    requires 0 <= d < 10
  {
    "0123456789"[d]
  }

  function NatToString(n: nat): (s: string)
    ensures |s| >= 1
  {
    if n < 10 then [DigitChar(n)] else NatToString(n / 10) + [DigitChar(n % 10)]
  }

  /** `str(n)` for an integer. */
  function IntToString(n: int): string {
    if n < 0 then "-" + NatToString(-n) else NatToString(n)
  }

  /** How an optional value prints inside an f-string: its text, or "None". */
  function ShowText(v: Option<string>): string {
    if v.Some? then v.value else "None"
  }

  function ShowNumber(v: Option<real>, number: real -> string): string {
    if v.Some? then number(v.value) else "None"
  }

  function ShowInt(v: Option<int>): string {
    if v.Some? then IntToString(v.value) else "None"
  }

  /** The air-quality label table (backend/weather.py:290-291). */
  function AqiLabel(v: Option<int>): (text: string)
    ensures text != "Unknown" <==> v.Some? && 1 <= v.value <= 5
  {
    if v == Some(1) then "Good"
    else if v == Some(2) then "Fair"
    else if v == Some(3) then "Moderate"
    else if v == Some(4) then "Poor"
    else if v == Some(5) then "Very Poor"
    else "Unknown"
  }

  const Degrees := "\U{B0}C"

  function LocationLine(p: Packet): string {
    p.location + (if Truthy(p.country) then ", " + p.country.value else "")
  }

  function ConditionsLine(c: Current, number: real -> string): string {
    "Current: " + ShowText(c.reading.description) + ", "
    + ShowNumber(c.reading.tempC, number) + Degrees
    + " (feels like " + ShowNumber(c.reading.feelsLikeC, number) + Degrees + ")"
  }

  function MeasuresLine(c: Current, number: real -> string): string {
    "Humidity: " + ShowNumber(c.reading.humidity, number) + "% | "
    + "Wind: " + ShowNumber(c.reading.windSpeed, number) + " m/s | "
    + "Clouds: " + ShowNumber(c.reading.cloudsPct, number) + "%"
  }

  function AqiLine(a: AirQuality): string {
    "AQI: " + ShowInt(a.aqiIndex) + " (" + AqiLabel(a.aqiIndex) + ")"
  }

  function DayLine(d: DailyForecast, number: real -> string, date: int -> string): string {
    date(d.date) + ": " + ShowText(d.commonDescription) + ", "
    + ShowNumber(d.tempMin, number) + Degrees + " - " + ShowNumber(d.tempMax, number) + Degrees
  }

  function DayLines(days: seq<DailyForecast>, number: real -> string, date: int -> string): (lines: seq<string>)
    ensures |lines| == |days|
    ensures forall k :: 0 <= k < |days| ==> lines[k] == DayLine(days[k], number, date)
  {
    if days == [] then []
    else DayLines(days[..|days| - 1], number, date) + [DayLine(days[|days| - 1], number, date)]
  }

  lemma DayLinesSnoc(days: seq<DailyForecast>, i: nat, number: real -> string, date: int -> string)
    requires i < |days|
    ensures DayLines(days[..i + 1], number, date) == DayLines(days[..i], number, date) + [DayLine(days[i], number, date)]
  {
    assert days[..i + 1][..i] == days[..i];
  }

  /** The summary lines before the forecast: location, then current conditions and air quality when present. */
  function HeadLines(p: Packet, number: real -> string): seq<string> {
    [LocationLine(p)]
    + (if p.current.Some? then [ConditionsLine(p.current.value, number), MeasuresLine(p.current.value, number)] else [])
    + (if p.aqi.Some? then [AqiLine(p.aqi.value)] else [])
  }

  /** `fc[:3]` */
  function ShownDays(p: Packet): (days: seq<DailyForecast>)
    ensures |days| <= 3
    ensures p.forecast.Some? ==> |days| <= |p.forecast.value| && days == p.forecast.value[..|days|]
    ensures p.forecast.Some? ==> |days| == if |p.forecast.value| < 3 then |p.forecast.value| else 3
    ensures p.forecast.None? ==> days == []
  {
    PyPrefix(if p.forecast.Some? then p.forecast.value else [], 3)
  }

  function SummaryLines(p: Packet, number: real -> string, date: int -> string): seq<string> {
    HeadLines(p, number) + DayLines(ShownDays(p), number, date)
  }

  /** `format_packet_for_prompt(packet)` as a value (backend/weather.py:266-301). */
  function Summary(packet: Option<Packet>, number: real -> string, date: int -> string): string {
    if packet.None? then "Weather data unavailable."
    else Join(SummaryLines(packet.value, number, date), " | ")
  }

  /** The lines `format_packet_for_prompt` appends before the forecast days (backend/weather.py:272-292). */
  method AppendHeadLines(p: Packet, number: real -> string) returns (lines: seq<string>)
    ensures lines == HeadLines(p, number)
  {
    lines := [LocationLine(p)];
    if p.current.Some? {
      lines := lines + [ConditionsLine(p.current.value, number)];
      lines := lines + [MeasuresLine(p.current.value, number)];
    }
    if p.aqi.Some? {
      lines := lines + [AqiLine(p.aqi.value)];
    }
  }

  /**
   * `format_packet_for_prompt(packet)` (backend/weather.py:266-301): appends the
   * location line, the two current-conditions lines, the air-quality line and one
   * line per forecast day (at most three), then joins them with " | ".
   */
  method FormatPacket(packet: Option<Packet>, number: real -> string, date: int -> string)
    returns (summary: string)
    ensures summary == Summary(packet, number, date)
  {
    if packet.None? {
      return "Weather data unavailable.";
    }
    var p := packet.value;
    var lines := AppendHeadLines(p, number);
    ghost var head := lines;
    var fc := if p.forecast.Some? then p.forecast.value else [];
    var shown := PyPrefix(fc, 3);
    assert shown == ShownDays(p);
    for i := 0 to |shown|
      invariant lines == head + DayLines(shown[..i], number, date)
    {
      DayLinesSnoc(shown, i, number, date);
      AppendAssoc(head, DayLines(shown[..i], number, date), [DayLine(shown[i], number, date)]);
      lines := lines + [DayLine(shown[i], number, date)];
    }
    assert shown[..|shown|] == shown;
    summary := Join(lines, " | ");
  }

  /**
   * The summary has the location line first, the current-conditions pair and the
   * air-quality line only when present, and one line for each of the first three
   * forecast days at most.
   */
  lemma SummaryShape(p: Packet, number: real -> string, date: int -> string)
    ensures var lines := SummaryLines(p, number, date);
            var extra := (if p.current.Some? then 2 else 0) + (if p.aqi.Some? then 1 else 0);
            var shown := ShownDays(p);
            && |lines| == 1 + extra + |shown| <= 1 + extra + 3
            && lines[0] == LocationLine(p)
            && forall k :: 0 <= k < |shown| ==> lines[1 + extra + k] == DayLine(shown[k], number, date)
  {
  }

  lemma {:induction false} JoinStartsWithFirst(lines: seq<string>, sep: string)
    requires lines != []
    ensures |Join(lines, sep)| >= |lines[0]| && Join(lines, sep)[..|lines[0]|] == lines[0]
  {
    if |lines| > 1 {
      assert Join(lines, sep) == lines[0] + (sep + Join(lines[1..], sep));
    }
  }

  /** A packet's summary starts with its location, so it is never empty. */
  lemma SummaryStartsWithLocation(p: Packet, number: real -> string, date: int -> string)
    ensures |Summary(Some(p), number, date)| >= |p.location|
    ensures Summary(Some(p), number, date)[..|p.location|] == p.location
  {
    var lines := SummaryLines(p, number, date);
    JoinStartsWithFirst(lines, " | ");
    assert lines[0] == LocationLine(p);
  }

  // ---------------------------------------------------------------------------
  // The engine
  // ---------------------------------------------------------------------------

  /** Stored forecasts list their days in strictly ascending order and no more than were asked for. */
  predicate SaneForecast(fs: seq<DailyForecast>, days: int) {
    && (forall i, j :: 0 <= i < j < |fs| ==> fs[i].date < fs[j].date)
    && (days >= 0 ==> |fs| <= days)
  }

  /** An aggregation result is sane. */
  lemma AggregateIsSane(samples: seq<Sample>, days: int, fs: seq<DailyForecast>)
    requires IsAggregate(samples, days, fs)
    ensures SaneForecast(fs, days)
  {
    var keys := ForecastDays(samples, days);
    ForecastDaysAscending(samples, days);
    assert forall k :: 0 <= k < |fs| ==> fs[k].date == keys[k];
    if days >= 0 {
      ForecastDaysBounded(samples, days);
    }
  }

  /** Whether a geocoding result can be used: it exists and has both coordinates. */
  predicate Locatable(geo: Option<Geo>) {
    geo.Some? && geo.value.lat.Some? && geo.value.lon.Some?
  }

  /** The contents of the four caches at one moment. */
  datatype Caches = Caches(geo: map<string, Entry<Geo>>, current: map<CoordKey, Entry<Current>>,
                           forecast: map<ForecastKey, Entry<seq<DailyForecast>>>,
                           aqi: map<CoordKey, Entry<AirQuality>>)

  /** What `geocode_location(location)` returns, given the caches before the call. */
  function GeoLookup(enabled: bool, c: Caches, location: string, now: real, p: Provider): Option<Geo> {
    Served(enabled, c.geo, GeoKey(location), now, GeoTtl, GeoFromReply(p.geocode(location)))
  }

  /**
   * `forecast` is a result `_fetch_forecast_by_coord` can return for `key`: nothing without
   * an API key or when a stale lookup meets a failed reply, the fresh entry, or else an
   * aggregation of the reply's samples for the day count in the key.
   */
  predicate ForecastServed(enabled: bool, cache: map<ForecastKey, Entry<seq<DailyForecast>>>, key: ForecastKey,
                           now: real, items: Option<seq<Sample>>, forecast: Option<seq<DailyForecast>>) {
    var hit := Fresh(cache, key, now, ForecastTtl);
    if !enabled || (hit.None? && items.None?) then forecast.None?
    else if hit.Some? then forecast == hit
    else forecast.Some? && IsAggregate(items.value, key.days, forecast.value)
  }

  /**
   * `pk` is the packet `build_weather_packet(location, days)` returns (backend/weather.py:234-260)
   * when the caches held `before`: the geocoding result has both coordinates, and each of
   * current conditions, forecast and air quality is what its fetcher returns for them.
   */
  predicate BuiltFrom(pk: Packet, location: string, days: int, now: real, p: Provider,
                      enabled: bool, before: Caches) {
    var geo := GeoLookup(enabled, before, location, now, p);
    var c := CoordOf(pk.lat, pk.lon);
    && location != ""
    && geo.Some? && geo.value.lat == Some(pk.lat) && geo.value.lon == Some(pk.lon)
    && pk.location == (if Truthy(geo.value.name) then geo.value.name.value else location)
    && pk.country == geo.value.country && pk.state == geo.value.state
    && pk.current == Served(enabled, before.current, c, now, CurrentTtl, CurrentFromReply(p.current(pk.lat, pk.lon)))
    && ForecastServed(enabled, before.forecast, ForecastKey(c, days), now,
                      SamplesFromReply(p.forecast(pk.lat, pk.lon), now), pk.forecast)
    && pk.aqi == Served(enabled, before.aqi, c, now, AqiTtl, AqiFromReply(p.air(pk.lat, pk.lon)))
    && pk.fetchedAt == now
  }

  /**
   * The caches after `build_weather_packet(location, days)` returned `packet`: a non-empty
   * location always goes through the geocoding cache (a match without coordinates is
   * stored too), and the three coordinate caches are written only when a packet is built.
   */
  predicate BuildEffect(location: string, days: int, now: real, p: Provider, enabled: bool,
                        packet: Option<Packet>, before: Caches, after: Caches) {
    && after.geo == (if location == "" then before.geo
                     else Stored(enabled, before.geo, GeoKey(location), now, GeoTtl, GeoFromReply(p.geocode(location))))
    && (packet.None? ==>
          after.current == before.current && after.forecast == before.forecast && after.aqi == before.aqi)
    && (packet.Some? ==>
          var pk := packet.value;
          var c := CoordOf(pk.lat, pk.lon);
          var items := SamplesFromReply(p.forecast(pk.lat, pk.lon), now);
          && after.current == Stored(enabled, before.current, c, now, CurrentTtl, CurrentFromReply(p.current(pk.lat, pk.lon)))
          && after.forecast == Stored(enabled, before.forecast, ForecastKey(c, days), now, ForecastTtl,
                                      if items.Some? then pk.forecast else None)
          && after.aqi == Stored(enabled, before.aqi, c, now, AqiTtl, AqiFromReply(p.air(pk.lat, pk.lon))))
  }

  /** `packet` and the summary made from it. */
  datatype WeatherSummary = WeatherSummary(packet: Packet, summary: string)

  class WeatherEngine {
    /** Whether an API key is configured; without one every fetcher returns nothing. */
    const hasKey: bool
    var geoCache: map<string, Entry<Geo>>
    var currentCache: map<CoordKey, Entry<Current>>
    var forecastCache: map<ForecastKey, Entry<seq<DailyForecast>>>
    var aqiCache: map<CoordKey, Entry<AirQuality>>

    /** Geocoding keys are normalised and every stored forecast is sane. */
    ghost predicate Valid()
      reads this
    {
      && (forall k :: k in geoCache ==> GeoKey(k) == k)
      && (forall k :: k in forecastCache ==> SaneForecast(forecastCache[k].value, k.days))
    }

    /** The four caches as they are now. */
    function Snapshot(): Caches
      reads this
    {
      Caches(geoCache, currentCache, forecastCache, aqiCache)
    }

    /** The module-level caches start empty (backend/weather.py:21-24). */
    constructor(hasKey: bool)
      ensures this.hasKey == hasKey
      ensures geoCache == map[] && currentCache == map[] && forecastCache == map[] && aqiCache == map[]
      ensures Valid()
    {
      this.hasKey := hasKey;
      geoCache, currentCache, forecastCache, aqiCache := map[], map[], map[], map[];
    }

    /** `geocode_location(location)` (backend/weather.py:42-80). */
    method Geocode(location: string, now: real, reply: Reply<seq<Geo>>) returns (geo: Option<Geo>)
      requires Valid()
      modifies this
      ensures Valid()
      ensures geo == Served(hasKey, old(geoCache), GeoKey(location), now, GeoTtl, GeoFromReply(reply))
      ensures geoCache == Stored(hasKey, old(geoCache), GeoKey(location), now, GeoTtl, GeoFromReply(reply))
      ensures currentCache == old(currentCache) && forecastCache == old(forecastCache) && aqiCache == old(aqiCache)
    {
      if !hasKey {
        return None;
      }
      var key := GeoKey(location);
      if key in geoCache && now - geoCache[key].fetchedAt < GeoTtl {
        return Some(geoCache[key].value);
      }
      // A raised request, a non-200 status and an empty answer all give None.
      geo := GeoFromReply(reply);
      if geo.Some? {
        StoreGeo(location, Entry(geo.value, now));
      }
    }

    /** `_geo_cache[key] = (top, now)`, under the normalised key of `location`. */
    method StoreGeo(location: string, e: Entry<Geo>)
      requires Valid()
      modifies this
      ensures Valid()
      ensures geoCache == old(geoCache)[GeoKey(location) := e]
      ensures currentCache == old(currentCache) && forecastCache == old(forecastCache) && aqiCache == old(aqiCache)
    {
      GeoKeyIdempotent(location);
      geoCache := geoCache[GeoKey(location) := e];
    }

    /** `_fetch_current_weather_by_coord(lat, lon)` (backend/weather.py:86-124). */
    method FetchCurrent(lat: real, lon: real, now: real, reply: Reply<CurrentReply>) returns (current: Option<Current>)
      requires Valid()
      modifies this
      ensures Valid()
      ensures current == Served(hasKey, old(currentCache), CoordOf(lat, lon), now, CurrentTtl, CurrentFromReply(reply))
      ensures currentCache == Stored(hasKey, old(currentCache), CoordOf(lat, lon), now, CurrentTtl, CurrentFromReply(reply))
      ensures geoCache == old(geoCache) && forecastCache == old(forecastCache) && aqiCache == old(aqiCache)
    {
      if !hasKey {
        return None;
      }
      var key := CoordOf(lat, lon);
      if key in currentCache && now - currentCache[key].fetchedAt < CurrentTtl {
        return Some(currentCache[key].value);
      }
      if reply.Raised? || reply.status != 200 {
        return None;
      }
      var res := Current(ProviderName, reply.body.raw, reply.body.reading);
      currentCache := currentCache[key := Entry(res, now)];
      return Some(res);
    }

    /**
     * `_fetch_forecast_by_coord(lat, lon, days)` (backend/weather.py:130-188): a fresh
     * entry for the coordinates and day count, else the aggregation of a successful reply.
     */
    method FetchForecast(lat: real, lon: real, days: int, now: real, reply: Reply<seq<Item>>)
      returns (forecast: Option<seq<DailyForecast>>)
      requires Valid()
      modifies this
      ensures Valid()
      ensures ForecastServed(hasKey, old(forecastCache), ForecastKey(CoordOf(lat, lon), days), now,
                             SamplesFromReply(reply, now), forecast)
      ensures forecastCache == Stored(hasKey, old(forecastCache), ForecastKey(CoordOf(lat, lon), days), now, ForecastTtl,
                                      if SamplesFromReply(reply, now).Some? then forecast else None)
      ensures forecast.Some? ==> SaneForecast(forecast.value, days)
      ensures geoCache == old(geoCache) && currentCache == old(currentCache) && aqiCache == old(aqiCache)
    {
      if !hasKey {
        return None;
      }
      var key := ForecastKey(CoordOf(lat, lon), days);
      if key in forecastCache && now - forecastCache[key].fetchedAt < ForecastTtl {
        return Some(forecastCache[key].value);
      }
      if reply.Raised? || reply.status != 200 {
        return None;
      }
      var samples := Stamped(reply.body, now.Floor);
      var result := AggregateForecast(samples, days);
      AggregateIsSane(samples, days, result);
      forecastCache := forecastCache[key := Entry(result, now)];
      return Some(result);
    }

    /** `_fetch_aqi_by_coord(lat, lon)` (backend/weather.py:194-228). */
    method FetchAqi(lat: real, lon: real, now: real, reply: Reply<seq<AirQuality>>) returns (aqi: Option<AirQuality>)
      requires Valid()
      modifies this
      ensures Valid()
      ensures aqi == Served(hasKey, old(aqiCache), CoordOf(lat, lon), now, AqiTtl, AqiFromReply(reply))
      ensures aqiCache == Stored(hasKey, old(aqiCache), CoordOf(lat, lon), now, AqiTtl, AqiFromReply(reply))
      ensures geoCache == old(geoCache) && currentCache == old(currentCache) && forecastCache == old(forecastCache)
    {
      if !hasKey {
        return None;
      }
      var key := CoordOf(lat, lon);
      if key in aqiCache && now - aqiCache[key].fetchedAt < AqiTtl {
        return Some(aqiCache[key].value);
      }
      if reply.Raised? || reply.status != 200 {
        return None;
      }
      if reply.body != [] {
        var result := reply.body[0];
        aqiCache := aqiCache[key := Entry(result, now)];
        return Some(result);
      }
      return None;
    }

    /** The geocoding result `build_weather_packet` works from. */
    function GeoFor(location: string, now: real, p: Provider): Option<Geo>
      reads this
    {
      GeoLookup(hasKey, Snapshot(), location, now, p)
    }

    /**
     * `build_weather_packet(location, days)` (backend/weather.py:234-260): nothing for
     * an empty location or an unusable geocoding result; otherwise every part that
     * could be fetched, each missing part absent on its own.
     */
    method BuildPacket(location: string, days: int, now: real, p: Provider) returns (packet: Option<Packet>)
      requires Valid()
      modifies this
      ensures Valid()
      ensures packet.Some? <==> location != "" && Locatable(old(GeoFor(location, now, p)))
      ensures packet.Some? ==> BuiltFrom(packet.value, location, days, now, p, hasKey, old(Snapshot()))
      ensures packet.Some? ==> packet.value.location != ""
      ensures packet.Some? && packet.value.forecast.Some? ==> SaneForecast(packet.value.forecast.value, days)
      ensures BuildEffect(location, days, now, p, hasKey, packet, old(Snapshot()), Snapshot())
    {
      if location == "" {
        return None;
      }
      var geo := Geocode(location, now, p.geocode(location));
      if geo.None? {
        return None;
      }
      var lat, lon := geo.value.lat, geo.value.lon;
      if lat.None? || lon.None? {
        return None;
      }
      var current := FetchCurrent(lat.value, lon.value, now, p.current(lat.value, lon.value));
      var forecast := FetchForecast(lat.value, lon.value, days, now, p.forecast(lat.value, lon.value));
      var aqi := FetchAqi(lat.value, lon.value, now, p.air(lat.value, lon.value));
      var name := if Truthy(geo.value.name) then geo.value.name.value else location;
      return Some(Packet(name, geo.value.country, geo.value.state, lat.value, lon.value,
                         current, forecast, aqi, now));
    }

    /** `get_weather_summary_for_prompt(location, days)` (backend/weather.py:307-315). */
    method GetWeatherSummary(location: string, days: int, now: real, p: Provider,
                             number: real -> string, date: int -> string)
      returns (res: Option<WeatherSummary>)
      requires Valid()
      modifies this
      ensures Valid()
      ensures res.Some? <==> location != "" && Locatable(old(GeoFor(location, now, p)))
      ensures res.Some? ==> BuiltFrom(res.value.packet, location, days, now, p, hasKey, old(Snapshot()))
      ensures BuildEffect(location, days, now, p, hasKey, if res.Some? then Some(res.value.packet) else None,
                          old(Snapshot()), Snapshot())
      ensures res.Some? ==> res.value.summary == Summary(Some(res.value.packet), number, date)
      ensures res.Some? ==> res.value.packet.location != "" && res.value.summary != ""
    {
      var pkt := BuildPacket(location, days, now, p);
      if pkt.None? {
        return None;
      }
      var summary := FormatPacket(pkt, number, date);
      SummaryStartsWithLocation(pkt.value, number, date);
      return Some(WeatherSummary(pkt.value, summary));
    }
  }
}
