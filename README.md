# Weather context for the KEN-AI chat relay, in Dafny

This project models the part of the KEN-AI chat backend that decides whether a
chat turn carries weather data, fetches that data through four time-to-live
caches, and hands it to the language model together with the chat history.
It also models the loop that relays the model's streamed answer back to the
client. The model follows `backend/main.py` and `backend/weather.py`.

- **Location** (`location.dfy`) models `extract_location`.
  - Ten forward phrase patterns are tried in order, then the reverse pattern
    "X weather", then the trailing 3, 2 and 1 words of the query.
  - The first candidate that survives stop-word removal and the "more than 2
    characters" check is returned, title-cased.
  - The module also models `is_weather_followup` and the choice between an
    extracted location and the chat's last location.
  - The regular expressions are written out as searches with Python's
    `re.search` behaviour on these literal patterns: leftmost start, greedy
    `[\w\s,.'-]+`, `.*` confined to one line.
  - The same extraction is also given as one first-match-wins list of fourteen
    rules. It is proved equal to the source's three loops.
- **LocationExamples** (`location_examples.dfy`) proves the query shapes that the
  `extract_location` docstring lists: "weather delhi", "weather in th delhi" and
  "delhi weather". Each gives the place name, title-cased, for every plain
  lower-case place name, not only for one city.
- **Chat** (`chat.dfy`) models `generate_chat_title` and the message list sent to
  the model. The list holds the system rules, then the two weather messages,
  then the history, then the user's message.
- **Turn** (`turn.dfy`) models the weather part of the `stream` handler. The
  location is resolved, the weather engine is asked, the chat's last location is
  replaced only on success, and the messages are assembled.
- **Relay** (`relay.dfy`) models `generate`. Chunks are split into lines, and
  each line is parsed and relayed. Tokens go to the client and to an
  accumulator. The reply is stored only when the stream completes.
- **Weather** (`weather.dfy`) models the weather engine as a class.
  - The four caches are map fields: geocoding, current conditions, forecast and
    air quality.
  - The fetchers are methods that take the clock (`now`) and the provider's
    reply as parameters.
  - Also modelled: `build_weather_packet`, `format_packet_for_prompt` and
    `get_weather_summary_for_prompt`.
- **Forecast** (`forecast.dfy`) models the daily aggregation of the three-hourly
  forecast samples: grouping by UTC day, sorting, truncating, and per-day
  min / max / mean and the most frequent description.
- **PyText** (`pytext.dfy`) gives the Python string operations used above:
  `strip`, `lower`, `title`, `split`, `join` and `in`.

The message the user just sent is stored before the history is read, so the
history already ends with it. The handler then appends the message once more
(backend/main.py:316-328, 398-403). `Chat.CurrentMessageSentTwice` states the
consequence: the model receives that message twice.

The handler's comment and its code disagree on one point, and the model
follows the code. The comment at backend/main.py:330 says the handler extracts
a location, or uses the chat's persisted last location on follow-ups. Its own
follow-up terms include "tomorrow" and "what about" (backend/main.py:127), so
"what about tomorrow" after a lookup for Pune is meant to be answered for Pune.
But the trailing-words fallback (backend/main.py:109-117) already extracts
"What About Tomorrow" from that query, so the last location is never reached.
`Location.WhatAboutTomorrowIgnoresLastLocation` proves this, and
`Location.TrailingWordShadowsLastLocation` gives the general form. The chat's
last location is also written with the resolved location string, not with the
geocoder's name for the place.

## Model

| member | source | states |
|---|---|---|
| Location.ExtractLocation | backend/main.py:65-119 | an empty query gives None; any location returned is longer than 2 characters |
| Location.ExtractLocationIsFirstMatch | backend/main.py:79-119 | the pattern loop, the reverse pattern and the window loop together are one first-match-wins pass over the fourteen rules in priority order |
| Location.ExtractLocationPriority | backend/main.py:80-117 | extraction returns `loc` exactly when some rule yields `loc` and every earlier rule yields nothing |
| Location.ExtractLocationPhases | backend/main.py:74-119 | for a non-empty query, extraction is the pattern loop, then the reverse pattern, then the window loop on the stripped, lower-cased query |
| Location.WindowPhase | backend/main.py:110-113 | the `len(words) >= 1` guard changes nothing: with no words the window loop finds nothing anyway |
| Location.ThreePhases | backend/main.py:93-117 | forward rules, then the reverse rule, then the window rules give what the three loops give |
| Location.FirstMatchWins | backend/main.py:93-99 | first-match-wins: a rule list yields `loc` iff some rule yields it and no earlier rule yields anything |
| Location.FirstMatchNone | backend/main.py:93-119 | a rule list yields nothing iff every rule yields nothing |
| Location.FirstMatchAppend | backend/main.py:93-117 | trying list `a` and then list `b` is trying `a + b` |
| Location.FirstOfWins | backend/main.py:93-99 | first-match-wins for any list of rules and any rule semantics, in both directions |
| Location.ForwardSearchIsFirstMatch | backend/main.py:93-99 | the pattern loop is first-match-wins over the forward rules, so a capture that is too short after cleaning does not stop the search |
| Location.WindowSearchIsFirstMatch | backend/main.py:112-117 | the window loop is first-match-wins over the window sizes 3, 2, 1 |
| Location.WindowSearchNoWords | backend/main.py:111-113 | without words no positive-size window yields a location |
| Location.WindowSearchFinds | backend/main.py:112-117 | when the loop over any suffix of the window sizes finds a location, the whole window loop finds one |
| Location.ForwardSearch | backend/main.py:93-99 | a location found by the pattern loop is longer than 2 characters |
| Location.WindowSearch | backend/main.py:112-117 | a location found by the window loop is longer than 2 characters |
| Location.WindowAt | backend/main.py:113-117 | a cleaned window of `size` trailing words is longer than 2 characters |
| Location.PatternCapture | backend/main.py:94-96 | a pattern that matches captures at least one character |
| Location.ReverseCapture | backend/main.py:102-104 | when the reverse pattern matches, its group 1 is non-empty |
| Location.FirstWhere | backend/main.py:94 | the leftmost index satisfying the test, or none in range |
| Location.LastWhere | backend/main.py:85-86 | the rightmost index satisfying the test, as greedy `.*` chooses it, or none in range |
| Location.ClassRun | backend/main.py:81 | the greedy capture run: every character is in `[\w\s,.'-]` and the run stops at the end or at a character outside it |
| Location.LineEnd | backend/main.py:85-86 | the first newline at or after the start, or the end: where `.` stops matching |
| Location.RemoveStopWords | backend/main.py:97 | deleting stop words never lengthens the text; the word-by-word behaviour is stated by `StopWordDeleted`, `OtherWordKept` and `SeparatorKept` |
| Location.StopWordDeleted | backend/main.py:97 | a whole word followed by a word boundary is deleted when it is a stop word (after lower-casing when case is ignored) |
| Location.OtherWordKept | backend/main.py:97 | a whole word that is not a stop word is kept unchanged, and removal goes on after it |
| Location.SeparatorKept | backend/main.py:97 | a non-word character is never deleted |
| Location.Accept | backend/main.py:98-99 | a candidate is accepted iff it is longer than 2 characters, and title-casing keeps its length |
| Location.AnyContained | backend/main.py:129 | true iff some term of the list is a substring of the text |
| Location.WeatherFollowupTerms | backend/main.py:123-129 | a query is a follow-up iff it is non-empty and its lower-cased form contains a weather term or a follow-up term |
| Location.ResolveLocation | backend/main.py:331-333 | an extracted location wins; otherwise a follow-up uses the chat's last location; otherwise there is no location |
| Location.ResolveExtracted | backend/main.py:331-333 | whenever extraction succeeds, the chat's last location is not used |
| Location.KeepsPlainWord | backend/main.py:97 | a lower-case word that is not a stop word survives stop-word removal unchanged |
| Location.CleanPlainCapture | backend/main.py:96-99 | a plain lower-case word of more than 2 letters that is not a stop word is kept, title-cased |
| Location.CaptureWeatherIn | backend/main.py:81 | "weather in " followed by a lower-case word captures exactly that word |
| Location.CaptureAfter | backend/main.py:81-94 | a phrase pattern applied to its literal followed by capture characters captures exactly those characters, to the end of the query |
| Location.NormalizedWeatherIn | backend/main.py:77 | "weather in " plus a lower-case word is unchanged by strip and lower |
| Location.WeatherInPlace | backend/main.py:93-99 | "weather in <place>" for a plain place name of more than 2 letters resolves to that name, title-cased |
| Location.LastWordWindow | backend/main.py:112-117 | the one-word window is tried last, so a last word that survives cleaning is always found |
| Location.TrailingWordFindsLocation | backend/main.py:110-117 | when the last word of the normalised query survives window cleaning, extraction succeeds |
| Location.TrailingWordShadowsLastLocation | backend/main.py:331-333 | in that case the chat's last location is never used, follow-up or not |
| Location.WhatAboutTomorrowIsFollowup | backend/main.py:123-129 | "what about tomorrow" is a follow-up |
| Location.WhatAboutTomorrowWords | backend/main.py:77-110 | "what about tomorrow", stripped and lower-cased, splits into the three words "what", "about", "tomorrow" |
| Location.TomorrowSurvivesCleaning | backend/main.py:115-117 | "tomorrow" survives window cleaning |
| Location.WhatAboutTomorrowIgnoresLastLocation | backend/main.py:331-333 | "what about tomorrow" is a follow-up, yet it yields an extracted location, and the chat's last location is not used |
| LocationExamples.WeatherPlace | backend/main.py:67 | "weather <place>" gives the place, title-cased, for every lower-case place name of more than 2 letters that is not a stop word |
| LocationExamples.WeatherInThPlace | backend/main.py:68 | "weather in th <place>" gives the place, title-cased: the stray "th" is deleted as a stop word |
| LocationExamples.PlaceWeather | backend/main.py:69 | "<place> weather" gives the place, title-cased, whenever the place does not itself end in "weather" or "temperature" |
| LocationExamples.CleanThPlace | backend/main.py:96-99 | cleaning the capture "th <place>" leaves the place, title-cased |
| LocationExamples.LeadingStopWordCleaned | backend/main.py:96-97 | a leading stop word is deleted from a capture and the blank it leaves is stripped |
| LocationExamples.StopWordThenPlace | backend/main.py:97 | in "<stop word> <place>" the stop word goes and the blank and the place stay |
| LocationExamples.LowerStopWordDeleted | backend/main.py:97 | a lower-case stop word is deleted whole under `re.IGNORECASE` |
| LocationExamples.JoinedTrimmed | backend/main.py:96 | two lower-case words joined by a blank have nothing to strip |
| LocationExamples.NormalizedLowerTrimmed | backend/main.py:77 | a query without capitals or surrounding blanks is unchanged by `strip().lower()` |
| LocationExamples.TwoBlanksAbsent | backend/main.py:94 | a literal holding two blanks occurs nowhere in a text with one blank |
| LocationExamples.AbsentLiteralNoCapture | backend/main.py:94 | a forward pattern whose literal occurs nowhere does not match |
| LocationExamples.TwoBlankPatternMisses | backend/main.py:94 | a forward pattern whose literal holds two blanks does not match a query with one blank |
| LocationExamples.FirstFourPatternsMiss | backend/main.py:81-84 | each of the first four patterns misses a query with one blank |
| LocationExamples.NextFourPatternsMiss | backend/main.py:85-88 | each of the next four patterns misses a query with one blank |
| LocationExamples.MultiBlankPatternsMiss | backend/main.py:81-88 | the first eight patterns all miss a query with one blank |
| LocationExamples.ForwardSearchSkips | backend/main.py:93-99 | patterns that match nothing are passed over by the pattern loop |
| LocationExamples.KeywordBlankOnlyAsSuffix | backend/main.py:89-90 | "<keyword> " occurs in "<place> weather" only where the place ends with the keyword |
| LocationExamples.ForwardMissesPlaceWeather | backend/main.py:80-99 | the pattern loop finds nothing in "<place> weather" unless the place ends in "weather" or "temperature" |
| LocationExamples.ReverseCapturesPlace | backend/main.py:102-103 | the reverse pattern captures exactly the place in "<place> weather" |
| PyText.Title | backend/main.py:99 | `title()` keeps the length |
| PyText.StripLeft | backend/main.py:77 | `lstrip()` removes exactly a blank prefix and leaves a non-blank first character |
| PyText.StripRight | backend/main.py:77 | `rstrip()` removes exactly a blank suffix and leaves a non-blank last character |
| PyText.StripTrimmed | backend/main.py:77 | a string with no blank at either end is its own `strip()` |
| PyText.StripIdempotent | backend/weather.py:46 | stripping twice is stripping once |
| PyText.StripLowerCommute | backend/weather.py:46 | `lower()` and `strip()` commute |
| PyText.StripPadded | backend/weather.py:46 | surrounding blanks do not change `strip()` |
| PyText.BlankIffStripsToEmpty | backend/main.py:435 | `not line.strip()` holds iff the line is all blanks |
| PyText.Words | backend/main.py:110 | every word of `split()` is non-empty and blank-free |
| PyText.WordsOfJoin | backend/main.py:114 | splitting words joined by single blanks gives the words back |
| PyText.Contains | backend/main.py:129 | `t in s` holds iff `t` occurs in `s` at some index |
| Chat.ChatTitle | backend/main.py:171-176 | empty text gives "New Chat"; a title never exceeds 30 characters |
| Chat.TitleWords | backend/main.py:174 | at most four words, each non-empty and blank-free |
| Chat.ChatTitleKeepsWords | backend/main.py:174-176 | a title that fits is the first (at most four) words of the message |
| Chat.ChatTitleTruncates | backend/main.py:176 | a title that does not fit is exactly 30 characters: 27 of the joined words and "..." |
| Chat.ChatTitleOfBlank | backend/main.py:172-175 | a non-empty message of blanks only gets the empty title, not "New Chat" |
| Chat.AssembleMessages | backend/main.py:380-403 | the system rules come first and the user's message last; the summary and packet messages are in positions 2-3 iff both are present; the history rows follow in order with their roles; the length is 2 + history + 2 when weather is attached |
| Chat.CurrentMessageSentTwice | backend/main.py:398-403 | when the history ends with the stored user message, the model receives that message as both of the last two entries |
| Turn.LookupWeather | backend/main.py:331-353 | the location is the resolved one; a packet exists iff the location is truthy and geocodes with coordinates, and then it is built from the geocoding result and the served current, forecast and air-quality values (`BuiltFrom`); the summary exists iff the packet does and is the packet's summary; the caches change as `build_weather_packet` changes them (`BuildEffect`); the last location changes only on success; without a location no cache changes |
| Turn.LookupMeansWeatherMessages | backend/main.py:383 | a successful lookup always gives the two weather messages |
| Turn.PrepareTurn | backend/main.py:326-403 | a packet exists iff the resolved location is truthy and geocodes with coordinates; the packet is built from the caches and replies as `BuiltFrom` states, and the caches change as `BuildEffect` states; the last location becomes the resolved location exactly on success; the message list has the shape `Chat.AssembleMessages` states, with the summary message and the `json.dumps` of the packet as messages 2 and 3 |
| Relay.SplitLines | backend/main.py:434 | `split("\n")` gives newline-free pieces that join back into the chunk |
| Relay.FirstDisconnect | backend/main.py:427-430 | the index of the first chunk that finds the client gone, or the chunk count |
| Relay.RelayLine | backend/main.py:434-446 | blank lines are skipped; parsed lines send their non-empty content; unparseable lines are sent verbatim; the accumulator stays the concatenation of what was sent |
| Relay.RelayLines | backend/main.py:434-446 | the tokens of all lines of a chunk, in order, with the accumulator kept equal to the concatenation of what was sent |
| Relay.RelayBody | backend/main.py:427-446 | cancelled iff some chunk finds the client gone; the tokens of exactly the chunks before it are sent; the accumulator is their concatenation |
| Relay.Relay | backend/main.py:406-470 | the outcome; the tokens sent are the body's tokens followed by exactly one error token when the run fails; the reply is stored iff the run completes, and what is stored is the accumulator |
| Relay.ConcatAppend | backend/main.py:441 | accumulating two token runs in turn is accumulating their concatenation |
| Relay.ChunksTokensNonEmpty | backend/main.py:435-442 | no empty token is ever sent |
| Relay.UnparseableChunkVerbatim | backend/main.py:443-446 | a one-line chunk that does not parse is sent as exactly its text |
| Relay.FirstDisconnectOfPrefix | backend/main.py:427-430 | chunk lists that agree up to a disconnected chunk have the same first disconnect |
| Relay.DisconnectStopsEmission | backend/main.py:427-430 | after a chunk finds the client gone, later chunks and late exceptions change nothing: the run is cancelled and sends the same tokens |
| Relay.DisconnectAfterThreeOfTen | backend/main.py:427-430 | a disconnect found at the fourth of ten chunks sends exactly the tokens of the first three and stores nothing |
| Relay.FirstDisconnectAt | backend/main.py:427-430 | the first disconnect is the first disconnected chunk |
| Forecast.GroupSamples | backend/weather.py:153-164 | the grouping loop builds the per-day buckets and the insertion order of their keys |
| Forecast.AggregateForecast | backend/weather.py:153-182 | the result is an aggregation: one entry per forecast day, each summarising that day's bucket |
| Forecast.SummarizeDay | backend/weather.py:168-182 | min, max and mean over the present temperatures, a most frequent description, and mean wind and humidity over the present readings |
| Forecast.SortedKeys | backend/weather.py:167 | `sorted(keys)`: strictly ascending, with exactly the keys given |
| Forecast.Insert | backend/weather.py:167 | inserting into an ascending list keeps it ascending and adds exactly that key |
| Forecast.PyPrefix | backend/weather.py:167 | Python's `xs[:n]` for any `n`, including a negative `n` |
| Forecast.Present | backend/weather.py:170-172 | the non-null readings, in order; empty iff every reading is null |
| Forecast.Minimum | backend/weather.py:176 | the minimum is an element and at most every element |
| Forecast.Maximum | backend/weather.py:177 | the maximum is an element and at least every element |
| Forecast.OnDay | backend/weather.py:154-158 | exactly the samples of that day |
| Forecast.DayOrderIsKeys | backend/weather.py:158 | the insertion-ordered keys are exactly the keys of the grouped map |
| Forecast.DayOrderMembers | backend/weather.py:154-158 | a day is a key iff some sample falls on it |
| Forecast.UndatedItemFiledToday | backend/weather.py:155-156 | an item without `dt` is grouped under the day of the clock, as `time.gmtime(None)` reads it |
| Forecast.DatedItemsIgnoreClock | backend/weather.py:155-156 | when every item carries `dt`, the samples grouped do not depend on the clock |
| Forecast.GroupByDayIsOnDay | backend/weather.py:153-164 | each day's bucket holds that day's samples in input order |
| Forecast.GroupedDayNonEmpty | backend/weather.py:179 | every grouped day has a non-empty description list |
| Forecast.ModeExists | backend/weather.py:179 | every non-empty list has a most frequent element |
| Forecast.ForecastDaysAscending | backend/weather.py:167 | the forecast days are strictly ascending, hence without duplicates |
| Forecast.ForecastDaysBounded | backend/weather.py:167 | no more days than requested |
| Forecast.ForecastDaysFromSamples | backend/weather.py:154-167 | every forecast day is the day of some input sample |
| Forecast.MeanBetween | backend/weather.py:176-178 | the mean lies between the minimum and the maximum |
| Forecast.SummaryStatistics | backend/weather.py:170-181 | min, max and mean are all present or all absent; they are absent iff no temperature is present; min <= mean <= max; a wind or humidity mean is absent iff no reading of it is present |
| Forecast.DayStatistics | backend/weather.py:166-182 | every aggregated day satisfies the temperature statistics above |
| Forecast.DayDescription | backend/weather.py:179 | the kept description belongs to one of that day's samples and is a most frequent one |
| Weather.GeoKeyIdempotent | backend/weather.py:46 | a geocoding key is already normalised |
| Weather.GeoKeyIgnoresCaseAndBlanks | backend/weather.py:46 | locations that differ only in case or surrounding blanks share one geocoding entry |
| Weather.Fresh | backend/weather.py:48-50 | a cached value is used iff its entry is less than the time to live old |
| Weather.FailureKeepsCache | backend/weather.py:60-65 | without a fetched value the cache is unchanged, and with no fresh entry nothing is returned |
| Weather.StoreTouchesOnlyKey | backend/weather.py:76 | a fetcher writes at most its own key, stamped `now`; every other entry is untouched |
| Weather.ExpiryIsStrict | backend/weather.py:49 | an entry exactly one time-to-live old is stale |
| Weather.StoredValueServedUntilExpiry | backend/weather.py:48-50 | a value stored at time `t` is returned for the same key until `t + ttl`, whatever the provider answers |
| Weather.AqiLabel | backend/weather.py:290-291 | the label is "Unknown" exactly when the index is absent or outside 1..5 |
| Weather.ShownDays | backend/weather.py:294-295 | at most three forecast days: the first `min(3, n)` of them, in order |
| Weather.DayLines | backend/weather.py:295-299 | one line per day, in order |
| Weather.AppendHeadLines | backend/weather.py:272-292 | the location line, the two current-conditions lines and the air-quality line, each only when present |
| Weather.FormatPacket | backend/weather.py:266-301 | the summary is `Summary`: "Weather data unavailable." without a packet, else the head lines and then one line per shown day, joined by a vertical bar with a blank on each side |
| Weather.SummaryShape | backend/weather.py:270-301 | the location line comes first, then 2 current-conditions lines and 1 air-quality line when present, then one line per shown day (at most three) |
| Weather.SummaryStartsWithLocation | backend/weather.py:272-274 | a packet's summary begins with its location |
| Weather.AggregateIsSane | backend/weather.py:166-182 | an aggregated forecast lists strictly ascending days, no more than requested |
| Weather.WeatherEngine.constructor | backend/weather.py:21-24 | the four caches start empty |
| Weather.WeatherEngine.Geocode | backend/weather.py:42-80 | nothing without an API key; a fresh entry under the stripped, lower-cased key is returned; otherwise the first match of a successful non-empty answer is returned and stored; other caches are untouched |
| Weather.WeatherEngine.StoreGeo | backend/weather.py:76 | the entry goes under the normalised key, and only the geocoding cache changes |
| Weather.WeatherEngine.FetchCurrent | backend/weather.py:86-124 | nothing without an API key; a fresh entry for the coordinates; otherwise a successful reply is returned and stored, with the provider's whole reply kept as `raw` beside the fields read from it; other caches are untouched |
| Weather.WeatherEngine.FetchForecast | backend/weather.py:130-188 | nothing without an API key; a fresh entry for the coordinates and day count is returned; otherwise a successful reply is aggregated, with an item lacking `dt` dated by the clock, stored under that key and returned; a failed reply returns and stores nothing; every forecast returned is sane; other caches are untouched |
| Weather.WeatherEngine.FetchAqi | backend/weather.py:194-228 | nothing without an API key; a fresh entry; otherwise the first element of a successful non-empty list is returned and stored; an empty list gives nothing and stores nothing |
| Weather.WeatherEngine.BuildPacket | backend/weather.py:234-260 | a packet exists iff the location is non-empty and geocodes with both coordinates; its location is the geocoded name when truthy, else the input, and never empty; country, state and coordinates come from the geocoding result; current conditions, forecast and air quality are exactly what their cached fetchers serve for those coordinates (`BuiltFrom`); the packet is stamped `now`; the geocoding cache is updated for any non-empty location, hit or miss; on success the current, forecast and air-quality caches hold what the fetchers stored, and without a packet they are unchanged (`BuildEffect`) |
| Weather.WeatherEngine.GetWeatherSummary | backend/weather.py:307-315 | a result exists iff a packet does; its packet is built as `BuildPacket` builds it (`BuiltFrom`) and the caches change as `BuildEffect` states; its summary is the formatted packet and is never empty |

## Left out

- HTTP, the database and the clock are left out.
  - The provider's answers are `Reply` values, one per request.
  - The model server's stream is an `Upstream` value.
  - `request.is_disconnected()` is a flag on each chunk.
  - The time is a `now` parameter that is the same for every read and write within one call.
  - The chat row's `last_location` is a parameter, and its replacement is a result.
- The handler's database statements are left out: the chat lookup (404), the user-message insert, the history query, the `last_location` update with its swallowed write errors, and the assistant-message insert.
- The first-message check that decides whether the title is written (a `COUNT(*)` query, backend/main.py:320-324) is left out. The model gives only the title itself.
- JSON parsing and serialisation are functions the caller supplies.
  - A line's parse result is `LineParse`.
  - The packet's `json.dumps`, including its fallback without indentation, is the `dumps` parameter.
- UTF-8 decoding of chunks is left out. Chunks arrive as decoded text, so a character split across two chunks is not modelled.
- Float rendering in f-strings is left out: numbers and dates are shown through the `number` and `date` parameters.
  - Forecast dates are integer day indices, and `strftime` is the `date` parameter.
  - Averages are exact reals, without floating-point rounding.
- Weather.Round4: `f"{x:.4f}"` as a cache key is approximated by rounding `x * 10000` half up, which is not Python's rounding of the binary float. The sign is not kept either: a small negative coordinate formats as "-0.0000" and a small positive one as "0.0000", so the source keeps two cache entries where the model has one key.
- The `except Exception` paths inside the fetchers are left out, such as a reply without a `weather` list or a forecast item whose fields have the wrong type. A non-200 status and an empty list are modelled. The `except Exception` around the weather engine in the handler is not modelled either.
- The `raw` field of current conditions is kept as an opaque value, the reply's JSON text. It travels into the packet but is not related to the fields read from it: a current-conditions reply arrives as that text together with those fields. The air-quality `components` are kept as a map. The other reply bodies arrive already reduced to the fields the code reads.
- A forecast item without `dt` is dated with the call's `now` (`Forecast.Stamped`). The source's `time.gmtime(None)` reads the clock again at that moment, in whole seconds, which the single `now` of a call does not distinguish.
- Text is modelled on ASCII only.
  - `lower()`, `title()` and the regex `\w` and `\b` use ASCII letters, digits and `_`.
  - `\s`, `strip()` and `split()` use Python's full whitespace set.
- The regular-expression engine is not modelled in general. Only the fourteen literal patterns are written out, with `re.search`'s leftmost, greedy behaviour.
- Concurrency is left out: simultaneous requests sharing the caches, and async scheduling.
- The `'N/A'` defaults of `format_packet_for_prompt` are dead code, because every key the summary reads is always present in the packet. An absent value prints as `None`, as the f-strings print it.
- Forecast.SummarizeDay: several descriptions can be equally frequent, and the source's `max(set(...))` picks one by set order. The model allows any of them.
- `resp.text()` on a non-200 status is not modelled as a call: on a streamed httpx response it always raises, so the error token is always "Model error" and no error body is ever relayed.
