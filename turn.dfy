/**
 * The weather part of one chat turn (`stream` in backend/main.py): the location is
 * resolved from the message and the chat's last location, the weather engine is
 * asked for a summary, the chat's last location is replaced only when that worked,
 * and the message list for the model is assembled from the result.
 *
 * The chat row's `last_location` is a parameter and its replacement a result; the
 * database writes themselves are not modelled.
 */
module Turn {
  import opened Wrappers
  import opened PyText
  import opened Location
  import opened Chat
  import opened Weather

  /** The day count the chat handler asks the weather engine for. */
  const ForecastDaysAsked := 5

  /**
   * Location resolution and weather lookup (backend/main.py:331-353): the lookup runs
   * only for a truthy location, and the chat's last location becomes that location
   * only when the lookup returned a result.
   */
  method LookupWeather(engine: WeatherEngine, query: string, lastLocation: Option<string>,
                       now: real, p: Provider, number: real -> string, date: int -> string)
    returns (location: Option<string>, summary: Option<string>, packet: Option<Packet>,
             newLastLocation: Option<string>)
    requires engine.Valid()
    modifies engine
    ensures engine.Valid()
    ensures location == ResolveLocation(query, lastLocation)
    ensures packet.Some? <==> Truthy(location) && Locatable(old(engine.GeoFor(location.value, now, p)))
    ensures summary.Some? <==> packet.Some?
    ensures packet.Some? ==>
      && summary.value == Summary(packet, number, date)
      && summary.value != ""
      && newLastLocation == location
    ensures packet.Some? ==>
      BuiltFrom(packet.value, location.value, ForecastDaysAsked, now, p, engine.hasKey, old(engine.Snapshot()))
    ensures packet.None? ==> newLastLocation == lastLocation
    ensures Truthy(location) ==>
      BuildEffect(location.value, ForecastDaysAsked, now, p, engine.hasKey, packet, old(engine.Snapshot()), engine.Snapshot())
    ensures !Truthy(location) ==> engine.Snapshot() == old(engine.Snapshot())
  {
    location := ExtractLocation(query);
    if !Truthy(location) && IsWeatherFollowup(query) {
      location := lastLocation;
    }
    summary, packet, newLastLocation := None, None, lastLocation;
    if Truthy(location) {
      var res := engine.GetWeatherSummary(location.value, ForecastDaysAsked, now, p, number, date);
      if res.Some? {
        summary := Some(res.value.summary);
        packet := Some(res.value.packet);
        newLastLocation := location;
      }
    }
  }

  /** A successful lookup always yields the two weather messages: its summary is never empty. */
  lemma LookupMeansWeatherMessages(summary: Option<string>, packet: Option<Packet>)
    requires summary.Some? <==> packet.Some?
    requires summary.Some? ==> summary.value != ""
    ensures WithWeather(summary, packet) <==> packet.Some?
  {
  }

  /**
   * What the handler prepares before streaming (backend/main.py:326-403): the weather
   * lookup and the message list.  `history` is the stored rows, which include the
   * message just inserted; `packet` is the weather packet the lookup produced, if any.
   */
  method PrepareTurn(engine: WeatherEngine, query: string, lastLocation: Option<string>,
                     history: seq<HistoryRow>, now: real, p: Provider,
                     number: real -> string, date: int -> string, dumps: Packet -> string)
    returns (location: Option<string>, packet: Option<Packet>,
             newLastLocation: Option<string>, messages: seq<Message>)
    requires engine.Valid()
    modifies engine
    ensures engine.Valid()
    ensures location == ResolveLocation(query, lastLocation)
    ensures packet.Some? <==> Truthy(location) && Locatable(old(engine.GeoFor(location.value, now, p)))
    ensures packet.Some? ==>
      BuiltFrom(packet.value, location.value, ForecastDaysAsked, now, p, engine.hasKey, old(engine.Snapshot()))
    ensures Truthy(location) ==>
      BuildEffect(location.value, ForecastDaysAsked, now, p, engine.hasKey, packet, old(engine.Snapshot()), engine.Snapshot())
    ensures !Truthy(location) ==> engine.Snapshot() == old(engine.Snapshot())
    ensures newLastLocation == if packet.Some? then location else lastLocation
    ensures TurnShape(messages, packet.Some?, history, query)
    ensures packet.Some? ==>
      && messages[1] == SummaryMessage(location.value, Summary(packet, number, date))
      && messages[2] == PacketMessage(dumps(packet.value))
  {
    var summary;
    location, summary, packet, newLastLocation := LookupWeather(engine, query, lastLocation, now, p, number, date);
    LookupMeansWeatherMessages(summary, packet);
    var shown := if location.Some? then location.value else "";
    messages := AssembleMessages(shown, summary, packet, dumps, history, query);
  }
}
