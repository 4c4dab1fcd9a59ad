/**
 * Location resolution for a chat turn: `extract_location`, `is_weather_followup`
 * and the choice between an extracted location and the chat's last location
 * (backend/main.py).
 *
 * `extract_location` is an ordered, first-match-wins list of rules: ten forward
 * phrase patterns, one reverse pattern ("delhi weather"), then the trailing 3, 2
 * and 1 words of the query.  Every candidate is cleaned (stop words removed,
 * blanks trimmed), rejected when 2 characters or shorter, and title-cased.
 * The regular expressions are modelled by what `re.search` does with them on
 * these literal patterns: leftmost start, greedy capture of `[\w\s,.'-]+`.
 */
module Location {
  import opened Wrappers
  import opened PyText

  // ---------------------------------------------------------------------------
  // Leftmost / rightmost search over an index range
  // ---------------------------------------------------------------------------

  /** The least index in [lo, hi] satisfying `p`. */
  function FirstWhere(p: nat -> bool, lo: nat, hi: int): (r: Option<nat>)
    ensures r.Some? ==> lo <= r.value <= hi && p(r.value)
    ensures r.Some? ==> forall k: nat :: lo <= k < r.value ==> !p(k)
    ensures r.None? ==> forall k: nat :: lo <= k <= hi ==> !p(k)
    decreases hi - lo + 1
  {
    if hi < lo then None
    else if p(lo) then Some(lo)
    else FirstWhere(p, lo + 1, hi)
  }

  /** The greatest index in [lo, hi] satisfying `p`. */
  function LastWhere(p: nat -> bool, lo: nat, hi: int): (r: Option<nat>)
    ensures r.Some? ==> lo <= r.value <= hi && p(r.value)
    ensures r.Some? ==> forall k: nat :: r.value < k <= hi ==> !p(k)
    ensures r.None? ==> forall k: nat :: lo <= k <= hi ==> !p(k)
    decreases hi - lo + 1
  {
    if hi < lo then None
    else if p(hi) then Some(hi)
    else LastWhere(p, lo, hi - 1)
  }

  // ---------------------------------------------------------------------------
  // The capture group `([\w\s,.'-]+)`
  // ---------------------------------------------------------------------------

  predicate InCaptureClass(c: char) {
    IsWordChar(c) || IsSpace(c) || c == ',' || c == '.' || c == '\'' || c == '-'
  }

  /** Length of the greedy run of capture characters starting at `i`. */
  function ClassRun(q: string, i: nat): (n: nat)
    requires i <= |q|
    ensures i + n <= |q|
    ensures forall k :: i <= k < i + n ==> InCaptureClass(q[k])
    ensures i + n == |q| || !InCaptureClass(q[i + n])
    decreases |q| - i
  {
    if i < |q| && InCaptureClass(q[i]) then 1 + ClassRun(q, i + 1) else 0
  }

  function Capture(q: string, i: nat): string
    requires i <= |q|
  {
    q[i..i + ClassRun(q, i)]
  }

  /** `lit([\w\s,.'-]+)` matches at `i`: the literal is there and one capture character follows it. */
  predicate CaptureAt(q: string, lit: string, i: nat) {
    OccursAt(q, lit, i) && i + |lit| < |q| && InCaptureClass(q[i + |lit|])
  }

  /** Index of the first newline at or after `from`, or the end of `q`: where `.` stops matching. */
  function LineEnd(q: string, from: nat): (e: nat)
    requires from <= |q|
    ensures from <= e <= |q|
    ensures forall k :: from <= k < e ==> q[k] != '\n'
    ensures e == |q| || q[e] == '\n'
    decreases |q| - from
  {
    if from == |q| || q[from] == '\n' then from else LineEnd(q, from + 1)
  }

  // ---------------------------------------------------------------------------
  // Forward patterns
  // ---------------------------------------------------------------------------

  /** `Phrase(lit)` is the regex `lit([\w\s,.'-]+)`; `LeadThenPhrase(lead, lit)` is `lead.*lit([\w\s,.'-]+)`. */
  datatype Pattern = Phrase(lit: string) | LeadThenPhrase(lead: string, lit: string)

  /** The ten forward patterns, in the order they are tried (backend/main.py:80-91). */
  const ForwardPatterns: seq<Pattern> := [
    Phrase("weather in "),
    Phrase("weather at "),
    Phrase("temperature in "),
    Phrase("forecast for "),
    LeadThenPhrase("what", "weather in "),
    LeadThenPhrase("how", "weather in "),
    Phrase("current weather in "),
    Phrase("what's the weather in "),
    Phrase("weather "),
    Phrase("temperature ")
  ]

  /** Greedy `.*` before `lit`: the last place on the current line where `lit` and a capture character follow. */
  function LastOnLine(q: string, lit: string, from: nat): Option<nat>
    requires from <= |q|
  {
    LastWhere((k: nat) => CaptureAt(q, lit, k), from, LineEnd(q, from))
  }

  /** `re.search(p, q)` for a forward pattern: the raw text of group 1, if the pattern matches. */
  function PatternCapture(p: Pattern, q: string): (r: Option<string>)
    ensures r.Some? ==> r.value != []
  {
    match p
    case Phrase(lit) =>
      var i := FirstWhere((k: nat) => CaptureAt(q, lit, k), 0, |q|);
      if i.Some? then Some(Capture(q, i.value + |lit|)) else None
    case LeadThenPhrase(lead, lit) =>
      var i := FirstWhere((k: nat) => OccursAt(q, lead, k) && LastOnLine(q, lit, k + |lead|).Some?, 0, |q|);
      if i.Some? then
        var j := LastOnLine(q, lit, i.value + |lead|).value;
        Some(Capture(q, j + |lit|))
      else None
  }

  // ---------------------------------------------------------------------------
  // Reverse pattern `([\w\s,.'-]+)\s+(weather|temperature|forecast)`
  // ---------------------------------------------------------------------------

  /** Length of the run of blanks starting at `i`. */
  function SpaceRun(q: string, i: nat): (n: nat)
    requires i <= |q|
    ensures i + n <= |q|
    decreases |q| - i
  {
    if i < |q| && IsSpace(q[i]) then 1 + SpaceRun(q, i + 1) else 0
  }

  predicate KeywordAt(q: string, m: nat) {
    OccursAt(q, "weather", m) || OccursAt(q, "temperature", m) || OccursAt(q, "forecast", m)
  }

  /** Group 1 may end at `k`: a run of blanks starts there and a keyword follows the run. */
  predicate SplitAt(q: string, k: nat) {
    k < |q| && IsSpace(q[k]) && KeywordAt(q, k + SpaceRun(q, k))
  }

  /** Where group 1 ends when the match starts at `i`: greedy, so the last split inside the capture run. */
  function ReverseSplit(q: string, i: nat): Option<nat>
    requires i <= |q|
  {
    LastWhere((k: nat) => SplitAt(q, k), i + 1, i + ClassRun(q, i) - 1)
  }

  /** `re.search(reverse, q).group(1)`, if the reverse pattern matches. */
  function ReverseCapture(q: string): (r: Option<string>)
    ensures r.Some? ==> r.value != []
  {
    var i := FirstWhere((k: nat) => k <= |q| && ReverseSplit(q, k).Some?, 0, |q|);
    if i.Some? then Some(q[i.value..ReverseSplit(q, i.value).value]) else None
  }

  // ---------------------------------------------------------------------------
  // Cleaning a candidate
  // ---------------------------------------------------------------------------

  /** Stop words deleted from pattern captures (backend/main.py:97, 105). */
  const StopWords: set<string> := {"the", "at", "in", "for", "near", "th"}

  /** The larger set used on trailing-word windows (backend/main.py:115). */
  const WindowStopWords: set<string> := StopWords + {"is", "present"}

  /** Length of the longest prefix of `s` made of word characters. */
  function WordLength(s: string): (n: nat)
    ensures n <= |s|
    ensures forall k :: 0 <= k < n ==> IsWordChar(s[k])
    ensures n == |s| || !IsWordChar(s[n])
  {
    if s == [] || !IsWordChar(s[0]) then 0 else 1 + WordLength(s[1..])
  }

  /**
   * `re.sub(r"\b(w1|...|wn)\b", "", s)`: every whole word of `s` (a maximal run of
   * word characters) that is a stop word is deleted; the rest of `s` is kept in place.
   * With `ignoreCase` the word is compared lower-cased, as with `re.IGNORECASE`.
   */
  function RemoveStopWords(s: string, stops: set<string>, ignoreCase: bool): (r: string)
    ensures |r| <= |s|
    decreases |s|
  {
    if s == [] then []
    else if IsWordChar(s[0]) then
      var n := WordLength(s);
      var w := s[..n];
      (if (if ignoreCase then Lower(w) else w) in stops then [] else w)
      + RemoveStopWords(s[n..], stops, ignoreCase)
    else [s[0]] + RemoveStopWords(s[1..], stops, ignoreCase)
  }

  /** `loc.title() if len(loc) > 2` */
  function Accept(loc: string): (r: Option<string>)
    ensures r.Some? <==> |loc| > 2
    ensures r.Some? ==> |r.value| == |loc|
  {
    if |loc| > 2 then Some(Title(loc)) else None
  }

  /** Post-processing of a pattern capture (backend/main.py:96-99, 104-107). */
  function CleanCapture(raw: string): Option<string> {
    Accept(Strip(RemoveStopWords(Strip(raw), StopWords, true)))
  }

  /** Post-processing of a trailing-word window (backend/main.py:114-117). */
  function CleanWindow(raw: string): Option<string> {
    Accept(Strip(RemoveStopWords(raw, WindowStopWords, false)))
  }

  // ---------------------------------------------------------------------------
  // extract_location, as the source writes it
  // ---------------------------------------------------------------------------

  /** The forward pattern loop: the first pattern whose cleaned capture survives. */
  function ForwardSearch(pats: seq<Pattern>, q: string): (r: Option<string>)
    ensures r.Some? ==> |r.value| > 2
  {
    if pats == [] then None
    else
      var c := PatternCapture(pats[0], q);
      var loc := if c.Some? then CleanCapture(c.value) else None;
      if loc.Some? then loc else ForwardSearch(pats[1..], q)
  }

  function ReverseSearch(q: string): Option<string> {
    var c := ReverseCapture(q);
    if c.Some? then CleanCapture(c.value) else None
  }

  /** Trailing-window sizes, in the order they are tried. */
  const WindowSizes: seq<nat> := [3, 2, 1]

  /** The trailing words of `words`, `size` of them, joined by single blanks. */
  function Window(words: seq<string>, size: nat): string
    requires size <= |words|
  {
    Join(words[|words| - size..], " ")
  }

  /** The cleaned window of `size` trailing words, when there are that many words. */
  function WindowAt(words: seq<string>, size: nat): (r: Option<string>)
    ensures r.Some? ==> |r.value| > 2
  {
    if |words| >= size then CleanWindow(Window(words, size)) else None
  }

  /** The fallback loop over window sizes. */
  function WindowSearch(sizes: seq<nat>, words: seq<string>): (r: Option<string>)
    ensures r.Some? ==> |r.value| > 2
  {
    if sizes == [] then None
    else
      var loc := WindowAt(words, sizes[0]);
      if loc.Some? then loc else WindowSearch(sizes[1..], words)
  }

  /** The window loop finds a location whenever the loop over its later sizes does, or the first size yields one. */
  lemma {:induction false} WindowSearchFinds(sizes: seq<nat>, words: seq<string>, k: nat)
    requires k <= |sizes| && WindowSearch(sizes[k..], words).Some?
    ensures WindowSearch(sizes, words).Some?
    decreases k
  {
    if k > 0 {
      assert sizes[1..][k - 1..] == sizes[k..];
      WindowSearchFinds(sizes[1..], words, k - 1);
    }
  }

  /** The normalised query every rule works on: `query.strip().lower()`. */
  function Normalized(query: string): string {
    Lower(Strip(query))
  }

  /** `extract_location(query)` (backend/main.py:65-119). */
  function ExtractLocation(query: string): (r: Option<string>)
    ensures query == "" ==> r.None?
    ensures r.Some? ==> |r.value| > 2
  {
    if query == "" then None else ExtractNormalized(Normalized(query))
  }

  /** The body of `extract_location` after normalisation (backend/main.py:78-119). */
  function ExtractNormalized(q: string): (r: Option<string>)
    ensures r.Some? ==> |r.value| > 2
  {
    var forward := ForwardSearch(ForwardPatterns, q);
    if forward.Some? then forward
    else
      var reverse := ReverseSearch(q);
      if reverse.Some? then reverse
      else
        var words := Words(q);
        if |words| >= 1 then WindowSearch(WindowSizes, words) else None
  }

  // ---------------------------------------------------------------------------
  // The same extraction as one ordered rule list
  // ---------------------------------------------------------------------------

  datatype Rule = Forward(pattern: Pattern) | Reverse | TrailingWords(size: nat)

  function ForwardRules(pats: seq<Pattern>): (rs: seq<Rule>)
    ensures |rs| == |pats|
    ensures forall k :: 0 <= k < |pats| ==> rs[k] == Forward(pats[k])
  {
    if pats == [] then [] else [Forward(pats[0])] + ForwardRules(pats[1..])
  }

  function WindowRules(sizes: seq<nat>): (rs: seq<Rule>)
    ensures |rs| == |sizes|
    ensures forall k :: 0 <= k < |sizes| ==> rs[k] == TrailingWords(sizes[k])
  {
    if sizes == [] then [] else [TrailingWords(sizes[0])] + WindowRules(sizes[1..])
  }

  /** All fourteen rules in priority order: ten forward patterns, the reverse pattern, windows of 3, 2, 1 words. */
  function Rules(): seq<Rule> {
    ForwardRules(ForwardPatterns) + [Reverse] + WindowRules(WindowSizes)
  }

  /** What one rule yields on the normalised query, after cleaning. */
  function RuleResult(rule: Rule, q: string): Option<string> {
    match rule
    case Forward(p) =>
      var c := PatternCapture(p, q);
      if c.Some? then CleanCapture(c.value) else None
    case Reverse => ReverseSearch(q)
    case TrailingWords(n) => WindowAt(Words(q), n)
  }

  /** First-match-wins over a list of rules, `f` giving what each rule yields. */
  function FirstOf<R>(rules: seq<R>, f: R -> Option<string>): Option<string> {
    if rules == [] then None
    else if f(rules[0]).Some? then f(rules[0]) else FirstOf(rules[1..], f)
  }

  /** Rule `k` yields `loc` and every earlier rule yields nothing. */
  ghost predicate WinsAtOf<R>(rules: seq<R>, f: R -> Option<string>, k: nat, loc: string) {
    && k < |rules|
    && f(rules[k]) == Some(loc)
    && forall j :: 0 <= j < k ==> f(rules[j]).None?
  }

  lemma {:induction false} FirstOfWins<R>(rules: seq<R>, f: R -> Option<string>, loc: string)
    ensures FirstOf(rules, f) == Some(loc) <==> exists k: nat :: WinsAtOf(rules, f, k, loc)
    decreases |rules|
  {
    if rules != [] {
      if f(rules[0]).Some? {
        if FirstOf(rules, f) == Some(loc) {
          assert WinsAtOf(rules, f, 0, loc);
        }
        forall k: nat | WinsAtOf(rules, f, k, loc) ensures FirstOf(rules, f) == Some(loc) {
          assert k == 0;
        }
      } else {
        FirstOfWins(rules[1..], f, loc);
        if FirstOf(rules, f) == Some(loc) {
          var k: nat :| WinsAtOf(rules[1..], f, k, loc);
          assert WinsAtOf(rules, f, k + 1, loc);
        }
        forall k: nat | WinsAtOf(rules, f, k, loc) ensures FirstOf(rules, f) == Some(loc) {
          assert k > 0;
          assert WinsAtOf(rules[1..], f, k - 1, loc);
        }
      }
    }
  }

  lemma {:induction false} FirstOfNone<R>(rules: seq<R>, f: R -> Option<string>)
    ensures FirstOf(rules, f).None? <==> forall k :: 0 <= k < |rules| ==> f(rules[k]).None?
    decreases |rules|
  {
    if rules != [] {
      FirstOfNone(rules[1..], f);
      assert forall k :: 1 <= k < |rules| ==> rules[k] == rules[1..][k - 1];
    }
  }

  lemma {:induction false} FirstOfAppend<R>(a: seq<R>, b: seq<R>, f: R -> Option<string>)
    ensures FirstOf(a + b, f) == (if FirstOf(a, f).Some? then FirstOf(a, f) else FirstOf(b, f))
    decreases |a|
  {
    if a == [] {
      assert a + b == b;
    } else {
      assert (a + b)[0] == a[0];
      assert (a + b)[1..] == a[1..] + b;
      FirstOfAppend(a[1..], b, f);
    }
  }

  /** What each rule yields on the normalised query `q`. */
  function ResultOn(q: string): Rule -> Option<string> {
    (rule: Rule) => RuleResult(rule, q)
  }

  /** First-match-wins evaluation of a rule list. */
  function FirstMatch(rules: seq<Rule>, q: string): Option<string> {
    FirstOf(rules, ResultOn(q))
  }

  /** Rule `k` yields `loc` and every earlier rule yields nothing. */
  ghost predicate WinsAt(rules: seq<Rule>, q: string, k: nat, loc: string) {
    && k < |rules|
    && RuleResult(rules[k], q) == Some(loc)
    && forall j :: 0 <= j < k ==> RuleResult(rules[j], q).None?
  }

  /** First-match-wins: a rule list yields `loc` exactly when some rule yields it and no earlier rule yields anything. */
  lemma FirstMatchWins(rules: seq<Rule>, q: string, loc: string)
    ensures FirstMatch(rules, q) == Some(loc) <==> exists k: nat :: WinsAt(rules, q, k, loc)
  {
    FirstOfWins(rules, ResultOn(q), loc);
    assert forall k: nat :: WinsAt(rules, q, k, loc) <==> WinsAtOf(rules, ResultOn(q), k, loc);
  }

  /** A rule list yields nothing exactly when every rule yields nothing. */
  lemma FirstMatchNone(rules: seq<Rule>, q: string)
    ensures FirstMatch(rules, q).None? <==> forall k :: 0 <= k < |rules| ==> RuleResult(rules[k], q).None?
  {
    FirstOfNone(rules, ResultOn(q));
  }

  /** Trying `a` then `b` is trying `a + b`. */
  lemma FirstMatchAppend(a: seq<Rule>, b: seq<Rule>, q: string)
    ensures FirstMatch(a + b, q) == (if FirstMatch(a, q).Some? then FirstMatch(a, q) else FirstMatch(b, q))
  {
    FirstOfAppend(a, b, ResultOn(q));
  }

  lemma {:induction false} ForwardSearchIsFirstMatch(pats: seq<Pattern>, q: string)
    ensures ForwardSearch(pats, q) == FirstMatch(ForwardRules(pats), q)
    decreases |pats|
  {
    if pats != [] {
      assert ForwardRules(pats)[1..] == ForwardRules(pats[1..]);
      ForwardSearchIsFirstMatch(pats[1..], q);
    }
  }

  lemma {:induction false} WindowSearchIsFirstMatch(sizes: seq<nat>, q: string)
    ensures WindowSearch(sizes, Words(q)) == FirstMatch(WindowRules(sizes), q)
    decreases |sizes|
  {
    if sizes != [] {
      assert WindowRules(sizes)[1..] == WindowRules(sizes[1..]);
      WindowSearchIsFirstMatch(sizes[1..], q);
    }
  }

  /** With no words there is no window of a positive size. */
  lemma {:induction false} WindowSearchNoWords(sizes: seq<nat>)
    requires forall k :: 0 <= k < |sizes| ==> sizes[k] >= 1
    ensures WindowSearch(sizes, []) == None
    decreases |sizes|
  {
    if sizes != [] {
      WindowSearchNoWords(sizes[1..]);
    }
  }

  /** Forward rules, then the reverse rule, then window rules: the three loops of the source, in order. */
  lemma ThreePhases(pats: seq<Pattern>, sizes: seq<nat>, q: string)
    ensures FirstMatch(ForwardRules(pats) + [Reverse] + WindowRules(sizes), q)
         == if ForwardSearch(pats, q).Some? then ForwardSearch(pats, q)
            else if ReverseSearch(q).Some? then ReverseSearch(q)
            else WindowSearch(sizes, Words(q))
  {
    ForwardSearchIsFirstMatch(pats, q);
    WindowSearchIsFirstMatch(sizes, q);
    FirstMatchAppend(ForwardRules(pats), [Reverse], q);
    FirstMatchAppend(ForwardRules(pats) + [Reverse], WindowRules(sizes), q);
    assert FirstMatch([Reverse], q) == ReverseSearch(q);
  }

  /** The pattern loop, then the reverse pattern, then the window loop. */
  function Phases(q: string): Option<string> {
    var forward := ForwardSearch(ForwardPatterns, q);
    if forward.Some? then forward
    else if ReverseSearch(q).Some? then ReverseSearch(q)
    else WindowSearch(WindowSizes, Words(q))
  }

  /** `extract_location` runs the pattern loop, then the reverse pattern, then the window loop. */
  lemma ExtractLocationPhases(query: string)
    requires query != ""
    ensures ExtractLocation(query) == Phases(Normalized(query))
  {
    NormalizedPhases(Normalized(query));
  }

  lemma NormalizedPhases(q: string)
    ensures ExtractNormalized(q) == Phases(q)
  {
    WindowPhase(Words(q));
  }

  /** The guard `if words:` before the window loop changes nothing: without words no window is tried. */
  lemma WindowPhase(words: seq<string>)
    ensures (if |words| >= 1 then WindowSearch(WindowSizes, words) else None) == WindowSearch(WindowSizes, words)
  {
    if words == [] {
      WindowSearchNoWords(WindowSizes);
    }
  }

  lemma RulesPhases(q: string)
    ensures FirstMatch(Rules(), q) == Phases(q)
  {
    ThreePhases(ForwardPatterns, WindowSizes, q);
  }

  /**
   * The three phases of `extract_location` (pattern loop, reverse pattern, window
   * loop) are one first-match-wins pass over the fourteen rules in priority order.
   */
  lemma ExtractLocationIsFirstMatch(query: string)
    requires query != ""
    ensures ExtractLocation(query) == FirstMatch(Rules(), Normalized(query))
  {
    ExtractLocationPhases(query);
    RulesPhases(Normalized(query));
  }

  /**
   * Priority: `extract_location` returns `loc` exactly when some rule yields `loc`
   * and every rule before it in the list yields nothing.
   */
  lemma ExtractLocationPriority(query: string, loc: string)
    requires query != ""
    ensures ExtractLocation(query) == Some(loc) <==> exists k: nat :: WinsAt(Rules(), Normalized(query), k, loc)
  {
    ExtractLocationIsFirstMatch(query);
    FirstMatchWins(Rules(), Normalized(query), loc);
  }

  // ---------------------------------------------------------------------------
  // is_weather_followup and the choice of location for a turn
  // ---------------------------------------------------------------------------

  const WeatherTerms: seq<string> := ["weather", "temperature", "forecast", "rain", "snow", "wind", "sunrise", "sunset"]

  const FollowupTerms: seq<string> := ["tomorrow", "day after", "next", "again", "same place", "how about", "what about", "later", "today"]

  /** `any(t in q for t in terms)` */
  function AnyContained(terms: seq<string>, q: string): (b: bool)
    ensures b <==> exists t :: t in terms && Contains(q, t)
  {
    if terms == [] then false
    else Contains(q, terms[0]) || AnyContained(terms[1..], q)
  }

  /** `is_weather_followup(query)` (backend/main.py:123-129). */
  function IsWeatherFollowup(query: string): bool {
    if query == "" then false
    else
      var q := Lower(query);
      AnyContained(WeatherTerms, q) || AnyContained(FollowupTerms, q)
  }

  /** A query is a follow-up exactly when it is non-empty and, lower-cased, contains a weather or follow-up term. */
  lemma WeatherFollowupTerms(query: string)
    ensures IsWeatherFollowup(query) <==> query != "" && exists t :: t in WeatherTerms + FollowupTerms && Contains(Lower(query), t)
  {
    if query != "" {
      var q := Lower(query);
      assert AnyContained(WeatherTerms, q) <==> exists t :: t in WeatherTerms && Contains(q, t);
      assert AnyContained(FollowupTerms, q) <==> exists t :: t in FollowupTerms && Contains(q, t);
    }
  }

  /**
   * The location a turn looks weather up for (backend/main.py:331-333): the extracted
   * location when there is one, else the chat's last location on a follow-up.
   */
  function ResolveLocation(query: string, lastLocation: Option<string>): (r: Option<string>)
    ensures ExtractLocation(query).Some? ==> r == ExtractLocation(query)
    ensures ExtractLocation(query).None? && IsWeatherFollowup(query) ==> r == lastLocation
    ensures ExtractLocation(query).None? && !IsWeatherFollowup(query) ==> r.None?
  {
    var location := ExtractLocation(query);
    if !Truthy(location) && IsWeatherFollowup(query) then lastLocation else location
  }

  // ---------------------------------------------------------------------------
  // Consequences
  // ---------------------------------------------------------------------------

  predicate LowerLetters(x: string) {
    forall k :: 0 <= k < |x| ==> 'a' <= x[k] <= 'z'
  }

  lemma {:induction false} ClassRunToEnd(q: string, i: nat)
    requires i <= |q|
    requires forall k :: i <= k < |q| ==> InCaptureClass(q[k])
    ensures ClassRun(q, i) == |q| - i
    decreases |q| - i
  {
    if i < |q| {
      ClassRunToEnd(q, i + 1);
    }
  }

  lemma LowerOfLowerLetters(x: string)
    requires LowerLetters(x)
    ensures Lower(x) == x
  {
  }

  /** A single lower-case word that is not a stop word survives stop-word removal. */
  lemma KeepsPlainWord(x: string, stops: set<string>, ignoreCase: bool)
    requires x != [] && LowerLetters(x) && x !in stops
    ensures RemoveStopWords(x, stops, ignoreCase) == x
  {
    assert WordLength(x) == |x|;
    assert x[..|x|] == x && x[|x|..] == [];
    LowerOfLowerLetters(x);
  }

  /** `w` is one whole word: non-empty, all word characters. */
  predicate IsWord(w: string) {
    w != [] && forall k :: 0 <= k < |w| ==> IsWordChar(w[k])
  }

  /** `t` cannot continue a word: it is empty or starts with a non-word character. */
  predicate WordBoundary(t: string) {
    t == [] || !IsWordChar(t[0])
  }

  lemma {:induction false} WordLengthOfWord(w: string, t: string)
    requires IsWord(w) && WordBoundary(t)
    ensures WordLength(w + t) == |w|
    decreases |w|
  {
    assert (w + t)[0] == w[0];
    if |w| > 1 {
      assert (w + t)[1..] == w[1..] + t;
      WordLengthOfWord(w[1..], t);
    } else {
      assert (w + t)[1..] == t;
    }
  }

  /** `\b(stop)\b`: a whole word that is a stop word is deleted, and the text after it is cleaned on. */
  lemma StopWordDeleted(w: string, t: string, stops: set<string>, ignoreCase: bool)
    requires IsWord(w) && WordBoundary(t)
    requires (if ignoreCase then Lower(w) else w) in stops
    ensures RemoveStopWords(w + t, stops, ignoreCase) == RemoveStopWords(t, stops, ignoreCase)
  {
    WordLengthOfWord(w, t);
    assert (w + t)[..|w|] == w && (w + t)[|w|..] == t;
  }

  /** A whole word that is not a stop word is kept as it is, even when a stop word is part of it. */
  lemma OtherWordKept(w: string, t: string, stops: set<string>, ignoreCase: bool)
    requires IsWord(w) && WordBoundary(t)
    requires (if ignoreCase then Lower(w) else w) !in stops
    ensures RemoveStopWords(w + t, stops, ignoreCase) == w + RemoveStopWords(t, stops, ignoreCase)
  {
    WordLengthOfWord(w, t);
    assert (w + t)[..|w|] == w && (w + t)[|w|..] == t;
  }

  /** Characters outside words (blanks, punctuation) are never deleted. */
  lemma SeparatorKept(c: char, t: string, stops: set<string>, ignoreCase: bool)
    requires !IsWordChar(c)
    ensures RemoveStopWords([c] + t, stops, ignoreCase) == [c] + RemoveStopWords(t, stops, ignoreCase)
  {
    assert ([c] + t)[1..] == t;
  }

  lemma LowerOfNoUpper(s: string)
    requires forall k :: 0 <= k < |s| ==> !IsUpper(s[k])
    ensures Lower(s) == s
  {
  }

  lemma NormalizedWeatherIn(x: string)
    requires LowerLetters(x) && x != []
    ensures Normalized("weather in " + x) == "weather in " + x
  {
    var lit := "weather in ";
    var q := lit + x;
    assert !IsSpace(q[0]) && !IsSpace(q[|q| - 1]) by {
      assert q[0] == 'w' && q[|q| - 1] == x[|x| - 1];
    }
    StripTrimmed(q);
    forall k | 0 <= k < |q| ensures !IsUpper(q[k]) {
      if k < |lit| { assert q[k] == lit[k]; } else { assert q[k] == x[k - |lit|]; }
    }
    LowerOfNoUpper(q);
  }

  lemma CaptureWeatherIn(x: string)
    requires LowerLetters(x) && x != []
    ensures PatternCapture(Phrase("weather in "), "weather in " + x) == Some(x)
  {
    CaptureAfter("weather in ", x);
  }

  /** A query that starts with the literal and continues with capture characters only captures all of the rest. */
  lemma CaptureAfter(lit: string, y: string)
    requires y != [] && forall k :: 0 <= k < |y| ==> InCaptureClass(y[k])
    ensures PatternCapture(Phrase(lit), lit + y) == Some(y)
  {
    var q := lit + y;
    assert q[0..|lit|] == lit;
    assert CaptureAt(q, lit, 0) by { assert q[|lit|] == y[0]; }
    ClassRunToEnd(q, |lit|) by {
      forall k | |lit| <= k < |q| ensures InCaptureClass(q[k]) { assert q[k] == y[k - |lit|]; }
    }
    assert Capture(q, |lit|) == y;
  }

  /** A plain lower-case word longer than 2 letters that is not a stop word is kept by capture cleaning, title-cased. */
  lemma CleanPlainCapture(x: string)
    requires LowerLetters(x) && |x| > 2 && x !in StopWords
    ensures CleanCapture(x) == Some(Title(x))
  {
    PlainWordKept(x, StopWords, true);
  }

  lemma PlainWordKept(x: string, stops: set<string>, ignoreCase: bool)
    requires LowerLetters(x) && x != [] && x !in stops
    ensures Strip(x) == x && RemoveStopWords(x, stops, ignoreCase) == x
  {
    PlainWordTrimmed(x);
    KeepsPlainWord(x, stops, ignoreCase);
  }

  lemma PlainWordTrimmed(x: string)
    requires LowerLetters(x)
    ensures Strip(x) == x
  {
    if x != [] {
      assert 'a' <= x[0] <= 'z' && 'a' <= x[|x| - 1] <= 'z';
    }
    StripTrimmed(x);
  }

  /** The pattern loop stops at its first pattern when that pattern's cleaned capture survives. */
  lemma ForwardSearchHead(pats: seq<Pattern>, q: string, loc: string)
    requires pats != [] && PatternCapture(pats[0], q).Some?
    requires CleanCapture(PatternCapture(pats[0], q).value) == Some(loc)
    ensures ForwardSearch(pats, q) == Some(loc)
  {
  }

  /** Whatever the pattern loop finds is what the three phases return. */
  lemma PhasesFindForward(q: string)
    requires ForwardSearch(ForwardPatterns, q).Some?
    ensures Phases(q) == ForwardSearch(ForwardPatterns, q)
  {
  }

  lemma ForwardWeatherIn(x: string)
    requires LowerLetters(x) && |x| > 2 && x !in StopWords
    ensures ForwardSearch(ForwardPatterns, "weather in " + x) == Some(Title(x))
  {
    CaptureWeatherIn(x);
    CleanPlainCapture(x);
    ForwardSearchWeatherIn("weather in " + x, Title(x));
  }

  /** "weather in " is the first forward pattern tried. */
  lemma ForwardSearchWeatherIn(q: string, loc: string)
    requires PatternCapture(Phrase("weather in "), q).Some?
    requires CleanCapture(PatternCapture(Phrase("weather in "), q).value) == Some(loc)
    ensures ForwardSearch(ForwardPatterns, q) == Some(loc)
  {
    ForwardSearchHead(ForwardPatterns, q, loc);
  }

  /** "weather in <place>" for a plain lower-case place name longer than 2 letters resolves to that name, title-cased. */
  lemma WeatherInPlace(x: string)
    requires LowerLetters(x) && |x| > 2 && x !in StopWords
    ensures ExtractLocation("weather in " + x) == Some(Title(x))
  {
    NormalizedWeatherIn(x);
    ForwardWeatherIn(x);
    PhasesFindForward("weather in " + x);
    ExtractLocationPhases("weather in " + x);
  }

  /**
   * A follow-up is looked up for the chat's last location only when extraction fails;
   * whenever the last word of the query survives window cleaning, extraction succeeds,
   * so the last location is never used.
   */
  lemma TrailingWordShadowsLastLocation(query: string, last: Option<string>)
    requires query != ""
    requires LastWordSurvives(Normalized(query))
    ensures ExtractLocation(query).Some?
    ensures ResolveLocation(query, last) == ExtractLocation(query)
  {
    TrailingWordFindsLocation(query);
    ResolveExtracted(query, last);
  }

  /** Whenever the last word of the normalised query survives window cleaning, extraction succeeds. */
  lemma TrailingWordFindsLocation(query: string)
    requires query != ""
    requires LastWordSurvives(Normalized(query))
    ensures ExtractLocation(query).Some?
  {
    LastWordFindsLocation(Normalized(query));
    PhasesFindLocation(query);
  }

  /** An extracted location is always the one used. */
  lemma ResolveExtracted(query: string, last: Option<string>)
    requires ExtractLocation(query).Some?
    ensures ResolveLocation(query, last) == ExtractLocation(query)
  {
  }

  /** The last word of `q` is a window that survives cleaning. */
  predicate LastWordSurvives(q: string) {
    var ws := Words(q);
    |ws| >= 1 && CleanWindow(ws[|ws| - 1]).Some?
  }

  lemma LastWordFindsLocation(q: string)
    requires LastWordSurvives(q)
    ensures Phases(q).Some?
  {
    LastWordWindow(Words(q));
    PhasesFindWindow(q);
  }

  lemma PhasesFindLocation(query: string)
    requires query != "" && Phases(Normalized(query)).Some?
    ensures ExtractLocation(query).Some?
  {
    ExtractLocationPhases(query);
  }

  /** The window loop runs last, so whatever it finds, the three phases find something. */
  lemma PhasesFindWindow(q: string)
    requires WindowSearch(WindowSizes, Words(q)).Some?
    ensures Phases(q).Some?
  {
  }

  /** The one-word window is the last one tried, so a surviving last word is always found. */
  lemma LastWordWindow(ws: seq<string>)
    requires |ws| >= 1 && CleanWindow(ws[|ws| - 1]).Some?
    ensures WindowSearch(WindowSizes, ws).Some?
  {
    assert ws[|ws| - 1..] == [ws[|ws| - 1]];
    assert Window(ws, 1) == ws[|ws| - 1];
    assert WindowSizes[2..] == [1];
    assert WindowSearch([1], ws).Some? by {
      assert WindowAt(ws, 1).Some?;
    }
    WindowSearchFinds(WindowSizes, ws, 2);
  }

  lemma WhatAboutTomorrowIsFollowup(query: string)
    requires query == "what about tomorrow"
    ensures Lower(query) == query
    ensures IsWeatherFollowup(query)
  {
    LowerOfNoUpper(query);
    assert query[11..19] == "tomorrow";
    assert OccursAt(Lower(query), "tomorrow", 11);
    assert "tomorrow" in WeatherTerms + FollowupTerms;
    WeatherFollowupTerms(query);
  }

  lemma WhatAboutTomorrowWords(query: string)
    requires query == "what about tomorrow"
    ensures Words(Normalized(query)) == ["what", "about", "tomorrow"]
  {
    WhatAboutTomorrowNormalized(query);
    WhatAboutTomorrowSplits(query);
  }

  lemma WhatAboutTomorrowNormalized(query: string)
    requires query == "what about tomorrow"
    ensures Normalized(query) == query
  {
    WhatAboutTomorrowTrimmed(query);
    WhatAboutTomorrowIsFollowup(query);
    NormalizedOfPlain(query);
  }

  lemma WhatAboutTomorrowTrimmed(query: string)
    requires query == "what about tomorrow"
    ensures Strip(query) == query
  {
    StripTrimmed(query);
  }

  /** A query with nothing to strip and no upper-case letter is its own normal form. */
  lemma NormalizedOfPlain(query: string)
    requires Strip(query) == query && Lower(query) == query
    ensures Normalized(query) == query
  {
  }

  lemma WhatAboutTomorrowSplits(query: string)
    requires query == "what about tomorrow"
    ensures Words(query) == ["what", "about", "tomorrow"]
  {
    var ws := ["what", "about", "tomorrow"];
    assert Join(ws, " ") == query;
    WordsOfJoin(ws);
  }

  lemma TomorrowSurvivesCleaning(w: string)
    requires w == "tomorrow"
    ensures CleanWindow(w).Some?
  {
    PlainWordKept(w, WindowStopWords, false);
  }

  /**
   * "what about tomorrow" is a follow-up, yet the window fallback already extracts a
   * location from it ("tomorrow" survives cleaning), so the chat's last location is not used.
   */
  lemma WhatAboutTomorrowIgnoresLastLocation(query: string, last: Option<string>)
    requires query == "what about tomorrow"
    ensures IsWeatherFollowup(query)
    ensures ExtractLocation(query).Some?
    ensures ResolveLocation(query, last) == ExtractLocation(query)
  {
    WhatAboutTomorrowIsFollowup(query);
    WhatAboutTomorrowLastWord(query);
    TrailingWordShadowsLastLocation(query, last);
  }

  lemma WhatAboutTomorrowLastWord(query: string)
    requires query == "what about tomorrow"
    ensures LastWordSurvives(Normalized(query))
  {
    WhatAboutTomorrowWords(query);
    TomorrowSurvivesCleaning("tomorrow");
  }
}
