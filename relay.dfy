/**
 * The token relay of one chat turn (`generate` in backend/main.py): the model's
 * streamed reply is read chunk by chunk, split into lines, parsed, and every token
 * is both sent to the client and appended to an accumulator that is stored as the
 * assistant's message once the stream ends without cancellation or error.
 *
 * The network is an `Upstream` value, the client-disconnect probe is a flag on each
 * chunk, and JSON parsing of a line is a function given by the caller.
 */
module Relay {
  import opened Wrappers
  import opened PyText

  /**
   * What the parser makes of one line: the `message.content` field of a JSON object
   * (`""` when absent), or `Unparseable` when parsing or using the result raised.
   */
  datatype LineParse = Content(token: string) | Unparseable

  /** An exception from the HTTP client: a request error or anything else. */
  datatype Fault = NetworkFault(detail: string) | OtherFault(detail: string)

  /** A received chunk, already decoded, and whether the client was gone when it arrived. */
  datatype Chunk = Chunk(disconnected: bool, text: string)

  /**
   * What the model server does: the request raises before a response exists, or a
   * response arrives with a status, the chunks of a streamed body, and an exception
   * raised after them, if any.
   */
  datatype Upstream =
    | OpenFailed(fault: Fault)
    | Opened(status: int, chunks: seq<Chunk>, tail: Option<Fault>)

  datatype Outcome = Completed | Cancelled | Failed

  // ---------------------------------------------------------------------------
  // Error tokens
  // ---------------------------------------------------------------------------

  /**
   * The token sent for a non-200 status (backend/main.py:418-424).  The handler tries
   * `await resp.text()` first, but on a streamed httpx response `text` is a property
   * that raises until the body has been read, so the `except` branch always supplies
   * the text "Model error".
   */
  const ModelErrorToken: string := "\U{274C} LLM model error: Model error"

  function FaultToken(f: Fault): string {
    match f
    case NetworkFault(d) => "Network error: " + d
    case OtherFault(d) => "Unexpected error: " + d
  }

  // ---------------------------------------------------------------------------
  // Lines and tokens
  // ---------------------------------------------------------------------------

  /** Index of the first newline of `t`, or `|t|`. */
  function NewlineIndex(t: string): (i: nat)
    ensures i <= |t|
    ensures forall k :: 0 <= k < i ==> t[k] != '\n'
    ensures i < |t| ==> t[i] == '\n'
  {
    if t == [] || t[0] == '\n' then 0 else 1 + NewlineIndex(t[1..])
  }

  /** `t.split("\n")`: the newline-free pieces of `t`, which `"\n".join` puts back together. */
  function SplitLines(t: string): (ls: seq<string>)
    ensures |ls| >= 1
    ensures forall l :: l in ls ==> '\n' !in l
    ensures Join(ls, "\n") == t
    decreases |t|
  {
    var i := NewlineIndex(t);
    if i == |t| then
      assert t[..i] == t;
      [t]
    else
      var rest := SplitLines(t[i + 1..]);
      assert t == t[..i] + "\n" + t[i + 1..];
      [t[..i]] + rest
  }

  /** What one line contributes: nothing if blank, its content if non-empty, itself verbatim if unparseable. */
  function LineTokens(parse: string -> LineParse, line: string): seq<string> {
    if IsBlank(line) then []
    else match parse(line)
      case Content(token) => if token != "" then [token] else []
      case Unparseable => [line]
  }

  function LinesTokens(parse: string -> LineParse, lines: seq<string>): seq<string> {
    if lines == [] then []
    else LinesTokens(parse, lines[..|lines| - 1]) + LineTokens(parse, lines[|lines| - 1])
  }

  /** The tokens of a sequence of chunks, chunk by chunk, line by line. */
  function ChunksTokens(parse: string -> LineParse, chunks: seq<Chunk>): seq<string> {
    if chunks == [] then []
    else ChunksTokens(parse, chunks[..|chunks| - 1]) + LinesTokens(parse, SplitLines(chunks[|chunks| - 1].text))
  }

  function Concat(ts: seq<string>): string {
    if ts == [] then "" else Concat(ts[..|ts| - 1]) + ts[|ts| - 1]
  }

  /** Index of the first chunk that finds the client gone, or `|chunks|`. */
  function FirstDisconnect(chunks: seq<Chunk>): (k: nat)
    ensures k <= |chunks|
    ensures forall j :: 0 <= j < k ==> !chunks[j].disconnected
    ensures k < |chunks| ==> chunks[k].disconnected
  {
    if chunks == [] || chunks[0].disconnected then 0 else 1 + FirstDisconnect(chunks[1..])
  }

  // ---------------------------------------------------------------------------
  // What a relay run produces
  // ---------------------------------------------------------------------------

  /** The tokens relayed from the body: those of every chunk before the first disconnect. */
  function BodyTokens(parse: string -> LineParse, up: Upstream): seq<string> {
    match up
    case OpenFailed(_) => []
    case Opened(status, chunks, _) =>
      if status != 200 then [] else ChunksTokens(parse, chunks[..FirstDisconnect(chunks)])
  }

  /** The error token that ends the run, if it ends in an error. */
  function ErrorOf(up: Upstream): Option<string> {
    match up
    case OpenFailed(f) => Some(FaultToken(f))
    case Opened(status, chunks, tail) =>
      if status != 200 then Some(ModelErrorToken)
      else if FirstDisconnect(chunks) < |chunks| then None
      else if tail.Some? then Some(FaultToken(tail.value))
      else None
  }

  function OutcomeOf(up: Upstream): Outcome {
    if ErrorOf(up).Some? then Failed
    else if up.Opened? && FirstDisconnect(up.chunks) < |up.chunks| then Cancelled
    else Completed
  }

  lemma ConcatSnoc(ts: seq<string>, t: string)
    ensures Concat(ts + [t]) == Concat(ts) + t
  {
    assert (ts + [t])[..|ts|] == ts;
  }

  lemma LinesTokensSnoc(parse: string -> LineParse, lines: seq<string>, j: nat)
    requires j < |lines|
    ensures LinesTokens(parse, lines[..j + 1]) == LinesTokens(parse, lines[..j]) + LineTokens(parse, lines[j])
  {
    assert lines[..j + 1][..j] == lines[..j];
  }

  lemma ChunksTokensSnoc(parse: string -> LineParse, chunks: seq<Chunk>, i: nat)
    requires i < |chunks|
    ensures ChunksTokens(parse, chunks[..i + 1]) == ChunksTokens(parse, chunks[..i]) + LinesTokens(parse, SplitLines(chunks[i].text))
  {
    assert chunks[..i + 1][..i] == chunks[..i];
  }

  /**
   * One line of a chunk (backend/main.py:432-446): a blank line is skipped, a parsed
   * line sends its non-empty content, and a line that does not parse is sent as is;
   * whatever is sent is also appended to the accumulator.
   */
  method RelayLine(parse: string -> LineParse, line: string, emitted0: seq<string>, accumulated0: string)
    returns (emitted: seq<string>, accumulated: string)
    requires accumulated0 == Concat(emitted0)
    ensures emitted == emitted0 + LineTokens(parse, line)
    ensures accumulated == Concat(emitted)
  {
    emitted, accumulated := emitted0, accumulated0;
    if IsBlank(line) {
      return;
    }
    match parse(line) {
      case Content(token) =>
        if token != "" {
          ConcatSnoc(emitted, token);
          accumulated := accumulated + token;
          emitted := emitted + [token];
        }
      case Unparseable =>
        ConcatSnoc(emitted, line);
        accumulated := accumulated + line;
        emitted := emitted + [line];
    }
  }

  /** The inner loop of `generate()` over `chunk.split("\n")` (backend/main.py:431-446). */
  method RelayLines(parse: string -> LineParse, lines: seq<string>, emitted0: seq<string>, accumulated0: string)
    returns (emitted: seq<string>, accumulated: string)
    requires accumulated0 == Concat(emitted0)
    ensures emitted == emitted0 + LinesTokens(parse, lines)
    ensures accumulated == Concat(emitted)
  {
    emitted, accumulated := emitted0, accumulated0;
    var j := 0;
    while j < |lines|
      invariant 0 <= j <= |lines|
      invariant emitted == emitted0 + LinesTokens(parse, lines[..j])
      invariant accumulated == Concat(emitted)
    {
      LinesTokensSnoc(parse, lines, j);
      emitted, accumulated := RelayLine(parse, lines[j], emitted, accumulated);
      AppendAssoc(emitted0, LinesTokens(parse, lines[..j]), LineTokens(parse, lines[j]));
      j := j + 1;
    }
    assert lines[..j] == lines;
  }

  /**
   * The loop of `generate()` over the chunks of a 200 response (backend/main.py:428-446):
   * stops at the first chunk that finds the client gone.
   */
  method RelayBody(parse: string -> LineParse, chunks: seq<Chunk>)
    returns (emitted: seq<string>, accumulated: string, cancelled: bool)
    ensures cancelled <==> FirstDisconnect(chunks) < |chunks|
    ensures emitted == ChunksTokens(parse, chunks[..FirstDisconnect(chunks)])
    ensures accumulated == Concat(emitted)
  {
    emitted, accumulated, cancelled := [], "", false;
    ghost var stop := FirstDisconnect(chunks);
    var i := 0;
    while i < |chunks|
      invariant 0 <= i <= stop
      invariant emitted == ChunksTokens(parse, chunks[..i])
      invariant accumulated == Concat(emitted)
    {
      if chunks[i].disconnected {
        cancelled := true;
        break;
      }
      assert i != stop;
      emitted, accumulated := RelayLines(parse, SplitLines(chunks[i].text), emitted, accumulated);
      ChunksTokensSnoc(parse, chunks, i);
      i := i + 1;
    }
  }

  /**
   * `generate()` (backend/main.py:406-470): the tokens sent to the client, the
   * accumulated reply, and the assistant message stored afterwards, if any.
   */
  method Relay(parse: string -> LineParse, up: Upstream)
    returns (emitted: seq<string>, accumulated: string, persisted: Option<string>, outcome: Outcome)
    ensures outcome == OutcomeOf(up)
    ensures emitted == BodyTokens(parse, up) + (if ErrorOf(up).Some? then [ErrorOf(up).value] else [])
    ensures accumulated == Concat(BodyTokens(parse, up))
    ensures persisted == (if outcome == Completed then Some(accumulated) else None)
    ensures Concat(emitted) == accumulated + (if outcome == Failed then emitted[|emitted| - 1] else "")
  {
    persisted := None;
    match up {
      case OpenFailed(f) =>
        emitted, accumulated, outcome := [FaultToken(f)], "", Failed;
      case Opened(status, chunks, tail) =>
        if status != 200 {
          emitted, accumulated, outcome := [ModelErrorToken], "", Failed;
          return;
        }
        var cancelled;
        emitted, accumulated, cancelled := RelayBody(parse, chunks);
        if cancelled {
          outcome := Cancelled;
        } else if tail.Some? {
          ConcatSnoc(emitted, FaultToken(tail.value));
          emitted := emitted + [FaultToken(tail.value)];
          outcome := Failed;
        } else {
          outcome := Completed;
          persisted := Some(accumulated);
        }
    }
  }

  // ---------------------------------------------------------------------------
  // Properties of a relay run
  // ---------------------------------------------------------------------------

  lemma {:induction false} ConcatAppend(a: seq<string>, b: seq<string>)
    ensures Concat(a + b) == Concat(a) + Concat(b)
    decreases |b|
  {
    if b == [] {
      assert a + b == a;
    } else {
      var c := b[..|b| - 1];
      assert a + b == (a + c) + [b[|b| - 1]];
      ConcatSnoc(a + c, b[|b| - 1]);
      ConcatAppend(a, c);
      ConcatSnoc(c, b[|b| - 1]);
      assert c + [b[|b| - 1]] == b;
    }
  }

  lemma {:induction false} LinesTokensNonEmpty(parse: string -> LineParse, lines: seq<string>)
    ensures forall t :: t in LinesTokens(parse, lines) ==> t != ""
    decreases |lines|
  {
    if lines != [] {
      LinesTokensNonEmpty(parse, lines[..|lines| - 1]);
    }
  }

  /** No empty token is ever sent: blank lines and empty contents are skipped. */
  lemma {:induction false} ChunksTokensNonEmpty(parse: string -> LineParse, chunks: seq<Chunk>)
    ensures forall t :: t in ChunksTokens(parse, chunks) ==> t != ""
    decreases |chunks|
  {
    if chunks != [] {
      ChunksTokensNonEmpty(parse, chunks[..|chunks| - 1]);
      LinesTokensNonEmpty(parse, SplitLines(chunks[|chunks| - 1].text));
    }
  }

  /** A chunk holding one non-blank line that does not parse is relayed as exactly that text. */
  lemma UnparseableChunkVerbatim(parse: string -> LineParse, text: string)
    requires '\n' !in text && !IsBlank(text) && parse(text) == Unparseable
    ensures LinesTokens(parse, SplitLines(text)) == [text]
  {
    assert NewlineIndex(text) == |text|;
    assert SplitLines(text) == [text];
    assert [text][..0] == [];
  }

  /** Two chunk sequences that agree up to and including a disconnected chunk have the same first disconnect. */
  lemma {:induction false} FirstDisconnectOfPrefix(a: seq<Chunk>, b: seq<Chunk>, k: nat)
    requires k < |a| && k < |b| && a[..k + 1] == b[..k + 1] && a[k].disconnected
    ensures FirstDisconnect(a) == FirstDisconnect(b) <= k
  {
    var fa, fb := FirstDisconnect(a), FirstDisconnect(b);
    assert forall j :: 0 <= j <= k ==> a[j] == b[j] by {
      forall j | 0 <= j <= k ensures a[j] == b[j] {
        assert a[..k + 1][j] == b[..k + 1][j];
      }
    }
    assert b[k].disconnected;
  }

  /**
   * Once a chunk finds the client gone, nothing after it matters: whatever follows
   * (more chunks, a late exception), the run is cancelled, relays the same tokens and
   * stores nothing.
   */
  lemma DisconnectStopsEmission(parse: string -> LineParse, chunks: seq<Chunk>,
                                k: nat, later: seq<Chunk>, tail: Option<Fault>, tail': Option<Fault>)
    requires k < |chunks| && chunks[k].disconnected
    ensures var up := Opened(200, chunks, tail);
            var up' := Opened(200, chunks[..k + 1] + later, tail');
            && OutcomeOf(up) == OutcomeOf(up') == Cancelled
            && BodyTokens(parse, up) == BodyTokens(parse, up')
  {
    var other := chunks[..k + 1] + later;
    assert other[..k + 1] == chunks[..k + 1];
    FirstDisconnectOfPrefix(chunks, other, k);
    var f := FirstDisconnect(chunks);
    assert chunks[..f] == other[..f] by {
      assert chunks[..f] == chunks[..k + 1][..f];
      assert other[..f] == other[..k + 1][..f];
    }
  }

  /**
   * If the client is found gone at the fourth of ten chunks, the client has received
   * exactly the tokens of the first three, and nothing is stored.
   */
  lemma DisconnectAfterThreeOfTen(parse: string -> LineParse, chunks: seq<Chunk>, tail: Option<Fault>)
    requires |chunks| == 10
    requires !chunks[0].disconnected && !chunks[1].disconnected && !chunks[2].disconnected
    requires chunks[3].disconnected
    ensures var up := Opened(200, chunks, tail);
            && OutcomeOf(up) == Cancelled
            && BodyTokens(parse, up) + (if ErrorOf(up).Some? then [ErrorOf(up).value] else []) == ChunksTokens(parse, chunks[..3])
  {
    FirstDisconnectAt(chunks, 3);
  }

  /** The first disconnect is at `k` when chunk `k` finds the client gone and no earlier one does. */
  lemma FirstDisconnectAt(chunks: seq<Chunk>, k: nat)
    requires k < |chunks| && chunks[k].disconnected
    requires forall j :: 0 <= j < k ==> !chunks[j].disconnected
    ensures FirstDisconnect(chunks) == k
  {
  }
}
