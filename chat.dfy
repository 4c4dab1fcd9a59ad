/**
 * Chat-level text: the title given to a chat from its first message, and the
 * message list sent to the language model for one turn (backend/main.py).
 */
module Chat {
  import opened Wrappers
  import opened PyText

  // ---------------------------------------------------------------------------
  // generate_chat_title
  // ---------------------------------------------------------------------------

  const TitleLimit := 30

  /** `text.split()[:4]` */
  function TitleWords(text: string): (ws: seq<string>)
    ensures |ws| <= 4
    ensures forall w :: w in ws ==> w != [] && NoSpace(w)
  {
    var all := Words(text);
    if |all| <= 4 then all
    else
      assert forall w :: w in all[..4] ==> w in all;
      all[..4]
  }

  /** `generate_chat_title(text)` (backend/main.py:171-176). */
  function ChatTitle(text: string): (t: string)
    ensures text == "" ==> t == "New Chat"
    ensures |t| <= TitleLimit
  {
    if text == "" then "New Chat"
    else
      var t := Join(TitleWords(text), " ");
      if |t| <= TitleLimit then t else t[..27] + "..."
  }

  /** A title that fits is the first (at most four) words of the message, one blank apart. */
  lemma ChatTitleKeepsWords(text: string)
    requires text != "" && |Join(TitleWords(text), " ")| <= TitleLimit
    ensures Words(ChatTitle(text)) == TitleWords(text)
  {
    WordsOfJoin(TitleWords(text));
  }

  /** A title that does not fit is cut to 27 characters of the joined words and marked with "...". */
  lemma ChatTitleTruncates(text: string)
    requires text != "" && |Join(TitleWords(text), " ")| > TitleLimit
    ensures |ChatTitle(text)| == TitleLimit
    ensures ChatTitle(text)[..27] == Join(TitleWords(text), " ")[..27]
    ensures ChatTitle(text)[27..] == "..."
  {
  }

  lemma {:induction false} WordsOfBlank(s: string)
    requires AllSpace(s)
    ensures Words(s) == []
    decreases |s|
  {
    if s != [] {
      WordsOfBlank(s[1..]);
    }
  }

  /** Only the empty message is called "New Chat": a message of blanks only gets the empty title. */
  lemma ChatTitleOfBlank(text: string)
    requires text != "" && AllSpace(text)
    ensures ChatTitle(text) == ""
  {
    WordsOfBlank(text);
  }

  // ---------------------------------------------------------------------------
  // The message list for one turn
  // ---------------------------------------------------------------------------

  datatype Message = Message(role: string, content: string)

  /** One stored chat row, as `SELECT message, role` returns it. */
  datatype HistoryRow = HistoryRow(message: string, role: string)

  /** The fixed system rules sent first on every turn (backend/main.py:360-373). */
  const SystemPrompt: string :=
    "\nYou are KEN ASSISTANT.\n\nIMPORTANT RULES FOR WEATHER ANSWERS:\n"
    + "1. When WEATHER_PACKET_JSON is provided, you MUST use ONLY that data.\n"
    + "2. NEVER guess, assume, or fabricate any weather info.\n"
    + "3. NEVER use AccuWeather, Google, or any external sources.\n"
    + "4. ONLY use data explicitly given inside WEATHER_PACKET_JSON.\n"
    + "5. If something is missing in the packet, say \"Weather data unavailable\".\n"
    + "6. Do NOT invent dates, temperatures, humidity, wind speeds, or conditions.\n"
    + "7. Your weather response MUST be based strictly on WEATHER_PACKET_JSON and/or the human-readable Weather Summary.\n"
    + "\nRespond clearly, accurately, and in Markdown format.\n"

  function SummaryMessage(location: string, summary: string): Message {
    Message("system", "Weather summary for " + location + ": " + summary)
  }

  /** The packet, serialised by the caller's JSON encoder, inside a fenced `json` block. */
  function PacketMessage(packetJson: string): Message {
    Message("system", "WEATHER_PACKET_JSON:\n```json\n" + packetJson + "\n```")
  }

  /** The two weather messages are sent only when both the summary and the packet are present. */
  predicate WithWeather<P>(summary: Option<string>, packet: Option<P>) {
    Truthy(summary) && packet.Some?
  }

  /**
   * The shape of the list sent to the model: the system rules first, then two system
   * messages when weather is attached, then the history rows in order with their
   * roles, and the user's message last.
   */
  predicate TurnShape(messages: seq<Message>, weather: bool, history: seq<HistoryRow>, message: string) {
    var w := if weather then 2 else 0;
    && |messages| == 2 + w + |history|
    && messages[0] == Message("system", SystemPrompt)
    && (weather ==> messages[1].role == "system" && messages[2].role == "system")
    && (forall k :: 0 <= k < |history| ==> messages[1 + w + k] == Message(history[k].role, history[k].message))
    && messages[|messages| - 1] == Message("user", message)
  }

  /**
   * The history is read after the user's message is stored, so when its last row is
   * that message the model receives the message twice, as the last two entries.
   */
  lemma CurrentMessageSentTwice(messages: seq<Message>, weather: bool, history: seq<HistoryRow>, message: string)
    requires TurnShape(messages, weather, history, message)
    requires |history| >= 1 && history[|history| - 1] == HistoryRow(message, "user")
    ensures messages[|messages| - 2] == Message("user", message)
    ensures messages[|messages| - 1] == Message("user", message)
  {
    var w := if weather then 2 else 0;
    assert messages[1 + w + (|history| - 1)] == Message(history[|history| - 1].role, history[|history| - 1].message);
  }

  /**
   * Builds the message list (backend/main.py:380-403): the system rules, then the
   * weather summary and packet messages when both exist, then the stored history in
   * order with its roles, then the user's message.  `dumps` is the JSON encoder.
   */
  method AssembleMessages<P>(location: string, summary: Option<string>, packet: Option<P>,
                             dumps: P -> string, history: seq<HistoryRow>, message: string)
    returns (messages: seq<Message>)
    ensures TurnShape(messages, WithWeather(summary, packet), history, message)
    ensures WithWeather(summary, packet) ==>
              messages[1] == SummaryMessage(location, summary.value) && messages[2] == PacketMessage(dumps(packet.value))
  {
    messages := [Message("system", SystemPrompt)];
    if Truthy(summary) && packet.Some? {
      messages := messages + [SummaryMessage(location, summary.value)];
      messages := messages + [PacketMessage(dumps(packet.value))];
    }
    var w := |messages| - 1;
    var i := 0;
    while i < |history|
      invariant 0 <= i <= |history|
      invariant |messages| == 1 + w + i
      invariant messages[0] == Message("system", SystemPrompt)
      invariant w == if WithWeather(summary, packet) then 2 else 0
      invariant w == 2 ==>
        messages[1] == SummaryMessage(location, summary.value) && messages[2] == PacketMessage(dumps(packet.value))
      invariant forall k :: 0 <= k < i ==> messages[1 + w + k] == Message(history[k].role, history[k].message)
    {
      messages := messages + [Message(history[i].role, history[i].message)];
      i := i + 1;
    }
    messages := messages + [Message("user", message)];
  }
}
