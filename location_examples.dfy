/**
 * The query shapes `extract_location` is documented to handle (backend/main.py:66-72):
 * "weather delhi", "weather in th delhi" and "delhi weather" all give the place name,
 * title-cased.  Each is proved for every plain lower-case place name, not one city.
 */
module LocationExamples {
  import opened Wrappers
  import opened PyText
  import opened Location

  // ---------------------------------------------------------------------------
  // Queries with a single blank
  // ---------------------------------------------------------------------------

  /** The only blank of `q` is at index `s`. */
  predicate OnlySpaceAt(q: string, s: nat) {
    forall k :: 0 <= k < |q| && IsSpace(q[k]) ==> k == s
  }

  /** `s` ends with `t`. */
  predicate EndsWith(s: string, t: string) {
    |t| <= |s| && s[|s| - |t|..] == t
  }

  /** A literal with two blanks never occurs in a text with one blank. */
  lemma TwoBlanksAbsent(q: string, s: nat, lit: string, i: nat, j: nat)
    requires OnlySpaceAt(q, s)
    requires i < j < |lit| && IsSpace(lit[i]) && IsSpace(lit[j])
    ensures forall k: nat :: !OccursAt(q, lit, k)
  {
    forall k: nat ensures !OccursAt(q, lit, k) {
      if k + |lit| <= |q| {
        assert q[k..k + |lit|][i] == q[k + i] && q[k..k + |lit|][j] == q[k + j];
      }
    }
  }

  /** A forward pattern whose literal never occurs captures nothing. */
  lemma AbsentLiteralNoCapture(p: Pattern, q: string)
    requires forall k: nat :: !OccursAt(q, p.lit, k)
    ensures PatternCapture(p, q).None?
  {
    match p
    case Phrase(lit) =>
    case LeadThenPhrase(lead, lit) =>
      forall from: nat | from <= |q| ensures LastOnLine(q, lit, from).None? {
      }
  }

  /** A forward pattern whose literal needs two blanks misses a query with one blank. */
  lemma TwoBlankPatternMisses(p: Pattern, q: string, s: nat, i: nat, j: nat)
    requires OnlySpaceAt(q, s)
    requires i < j < |p.lit| && IsSpace(p.lit[i]) && IsSpace(p.lit[j])
    ensures PatternCapture(p, q).None?
  {
    TwoBlanksAbsent(q, s, p.lit, i, j);
    AbsentLiteralNoCapture(p, q);
  }

  /** Each of forward patterns 0-3 needs two blanks, so a query with one blank passes it by. */
  lemma FirstFourPatternsMiss(i: nat, q: string, s: nat)
    requires i < 4 && OnlySpaceAt(q, s)
    ensures PatternCapture(ForwardPatterns[i], q).None?
  {
    if i == 0 {
      TwoBlankPatternMisses(Phrase("weather in "), q, s, 7, 10);
    } else if i == 1 {
      TwoBlankPatternMisses(Phrase("weather at "), q, s, 7, 10);
    } else if i == 2 {
      TwoBlankPatternMisses(Phrase("temperature in "), q, s, 11, 14);
    } else {
      TwoBlankPatternMisses(Phrase("forecast for "), q, s, 8, 12);
    }
  }

  /** Each of forward patterns 4-7 needs two blanks, so a query with one blank passes it by. */
  lemma NextFourPatternsMiss(i: nat, q: string, s: nat)
    requires 4 <= i < 8 && OnlySpaceAt(q, s)
    ensures PatternCapture(ForwardPatterns[i], q).None?
  {
    if i == 4 {
      TwoBlankPatternMisses(LeadThenPhrase("what", "weather in "), q, s, 7, 10);
    } else if i == 5 {
      TwoBlankPatternMisses(LeadThenPhrase("how", "weather in "), q, s, 7, 10);
    } else if i == 6 {
      TwoBlankPatternMisses(Phrase("current weather in "), q, s, 7, 15);
    } else {
      TwoBlankPatternMisses(Phrase("what's the weather in "), q, s, 6, 10);
    }
  }

  /** The first eight forward patterns all pass by a query with one blank. */
  lemma MultiBlankPatternsMiss(q: string, s: nat)
    requires OnlySpaceAt(q, s)
    ensures forall i :: 0 <= i < 8 ==> PatternCapture(ForwardPatterns[i], q).None?
  {
    forall i | 0 <= i < 8 ensures PatternCapture(ForwardPatterns[i], q).None? {
      if i < 4 { FirstFourPatternsMiss(i, q, s); } else { NextFourPatternsMiss(i, q, s); }
    }
  }

  /** Patterns that capture nothing are passed over by the pattern loop. */
  lemma {:induction false} ForwardSearchSkips(pats: seq<Pattern>, q: string, k: nat)
    requires k <= |pats|
    requires forall i :: 0 <= i < k ==> PatternCapture(pats[i], q).None?
    ensures ForwardSearch(pats, q) == ForwardSearch(pats[k..], q)
    decreases k
  {
    if k > 0 {
      assert pats[1..][k - 1..] == pats[k..];
      ForwardSearchSkips(pats[1..], q, k - 1);
    }
  }

  /** A trimmed query without capitals is its own normal form. */
  lemma NormalizedLowerTrimmed(q: string)
    requires q != [] && !IsSpace(q[0]) && !IsSpace(q[|q| - 1])
    requires forall k :: 0 <= k < |q| ==> !IsUpper(q[k])
    ensures Normalized(q) == q
  {
    StripTrimmed(q);
    LowerOfNoUpper(q);
  }

  // ---------------------------------------------------------------------------
  // "weather delhi"
  // ---------------------------------------------------------------------------

  /** "weather <place>" gives the place, title-cased, through the pattern `weather (...)`. */
  lemma WeatherPlace(x: string)
    requires LowerLetters(x) && |x| > 2 && x !in StopWords
    ensures ExtractLocation("weather " + x) == Some(Title(x))
  {
    var lit := "weather ";
    var q := lit + x;
    forall k | 0 <= k < |q| ensures !IsUpper(q[k]) && (IsSpace(q[k]) ==> k == 7) {
      if k < |lit| { assert q[k] == lit[k]; } else { assert q[k] == x[k - |lit|]; }
    }
    NormalizedLowerTrimmed(q) by { assert q[|q| - 1] == x[|x| - 1]; }
    MultiBlankPatternsMiss(q, 7);
    ForwardSearchSkips(ForwardPatterns, q, 8);
    CaptureAfter(lit, x);
    CleanPlainCapture(x);
    ForwardSearchHead(ForwardPatterns[8..], q, Title(x));
    PhasesFindForward(q);
    ExtractLocationPhases(q);
  }

  // ---------------------------------------------------------------------------
  // "weather in th delhi"
  // ---------------------------------------------------------------------------

  /** A lower-case stop word is deleted whole, case folding or not. */
  lemma LowerStopWordDeleted(w: string, t: string, stops: set<string>)
    requires LowerLetters(w) && w != [] && w in stops && WordBoundary(t)
    ensures RemoveStopWords(w + t, stops, true) == RemoveStopWords(t, stops, true)
  {
    LowerOfNoUpper(w);
    StopWordDeleted(w, t, stops, true);
  }

  /** A leading stop word is deleted from a capture, and the blank it leaves is trimmed. */
  lemma LeadingStopWordCleaned(w: string, x: string, stops: set<string>)
    requires LowerLetters(w) && w != [] && w in stops
    requires LowerLetters(x) && x != [] && x !in stops
    ensures Strip(RemoveStopWords(Strip(w + " " + x), stops, true)) == x
  {
    JoinedTrimmed(w, x);
    StopWordThenPlace(w, x, stops);
    StripPadded(" ", x, "");
    assert " " + x + "" == " " + x;
    PlainWordKept(x, stops, true);
  }

  /** Deleting the stop word `w` from "<w> <x>" leaves the blank and the kept word `x`. */
  lemma StopWordThenPlace(w: string, x: string, stops: set<string>)
    requires LowerLetters(w) && w != [] && w in stops
    requires LowerLetters(x) && x != [] && x !in stops
    ensures RemoveStopWords(w + " " + x, stops, true) == " " + x
  {
    var t := [' '] + x;
    assert WordBoundary(t) by { assert t[0] == ' '; }
    assert w + " " + x == w + t;
    LowerStopWordDeleted(w, t, stops);
    SeparatorKept(' ', x, stops, true);
    PlainWordKept(x, stops, true);
  }

  /** Two lower-case words joined by a blank have nothing to trim. */
  lemma JoinedTrimmed(w: string, x: string)
    requires LowerLetters(w) && w != [] && LowerLetters(x) && x != []
    ensures Strip(w + " " + x) == w + " " + x
  {
    var y := w + " " + x;
    assert y[0] == w[0] && y[|y| - 1] == x[|x| - 1];
    StripTrimmed(y);
  }

  /** The stray stop word "th" is deleted from the capture and the blank it leaves is trimmed. */
  lemma CleanThPlace(x: string)
    requires LowerLetters(x) && |x| > 2 && x !in StopWords
    ensures CleanCapture("th " + x) == Some(Title(x))
  {
    assert "th " + x == "th" + " " + x;
    LeadingStopWordCleaned("th", x, StopWords);
    CleanPlainCapture(x);
  }

  /** "weather in th <place>" gives the place, title-cased: "th" is a stop word. */
  lemma WeatherInThPlace(x: string)
    requires LowerLetters(x) && |x| > 2 && x !in StopWords
    ensures ExtractLocation("weather in th " + x) == Some(Title(x))
  {
    var lit := "weather in ";
    var y := "th " + x;
    var q := lit + y;
    assert q == "weather in th " + x;
    forall k | 0 <= k < |q| ensures !IsUpper(q[k]) {
      if k < 14 { assert q[k] == "weather in th "[k]; } else { assert q[k] == x[k - 14]; }
    }
    NormalizedLowerTrimmed(q) by { assert q[|q| - 1] == x[|x| - 1]; }
    CaptureAfter(lit, y) by {
      forall k | 0 <= k < |y| ensures InCaptureClass(y[k]) {
        if k < 3 { assert y[k] == "th "[k]; } else { assert y[k] == x[k - 3]; }
      }
    }
    CleanThPlace(x);
    ForwardSearchWeatherIn(q, Title(x));
    PhasesFindForward(q);
    ExtractLocationPhases(q);
  }

  // ---------------------------------------------------------------------------
  // "delhi weather"
  // ---------------------------------------------------------------------------

  /** `kw` followed by a blank occurs in "<place> weather" only where the place ends with `kw`. */
  lemma KeywordBlankOnlyAsSuffix(x: string, kw: string)
    requires LowerLetters(x)
    ensures forall k: nat :: OccursAt(x + " weather", kw + " ", k) ==> EndsWith(x, kw)
  {
    var q := x + " weather";
    forall m | 0 <= m < |q| ensures IsSpace(q[m]) ==> m == |x| {
      if m < |x| { assert q[m] == x[m]; } else { assert q[m] == " weather"[m - |x|]; }
    }
    forall k: nat ensures OccursAt(q, kw + " ", k) ==> EndsWith(x, kw) {
      if k + |kw| + 1 <= |q| && q[k..k + |kw| + 1] == kw + " " {
        var w := q[k..k + |kw| + 1];
        assert w[|kw|] == ' ' && w[|kw|] == q[k + |kw|];
        assert w[..|kw|] == q[k..k + |kw|];
        assert (kw + " ")[..|kw|] == kw;
        assert x[|x| - |kw|..] == q[k..k + |kw|];
      }
    }
  }

  /** The reverse pattern captures the place in "<place> weather". */
  lemma ReverseCapturesPlace(x: string)
    requires LowerLetters(x) && x != []
    ensures ReverseCapture(x + " weather") == Some(x)
  {
    var q := x + " weather";
    forall k | 0 <= k < |q| ensures InCaptureClass(q[k]) && (IsSpace(q[k]) ==> k == |x|) {
      if k < |x| { assert q[k] == x[k]; } else { assert q[k] == " weather"[k - |x|]; }
    }
    ClassRunToEnd(q, 0);
    assert SpaceRun(q, |x|) == 1 by { assert q[|x| + 1] == 'w'; }
    assert OccursAt(q, "weather", |x| + 1) by { assert q[|x| + 1..] == "weather"; }
    var split := (k: nat) => SplitAt(q, k);
    assert split(|x|);
    var r := LastWhere(split, 1, |q| - 1);
    assert ReverseSplit(q, 0) == r;
    assert r.Some? && split(r.value);
    assert r == Some(|x|);
    assert q[0..|x|] == x;
  }

  /** No forward pattern matches "<place> weather" unless the place itself ends in a keyword. */
  lemma ForwardMissesPlaceWeather(x: string)
    requires LowerLetters(x) && x != []
    requires !EndsWith(x, "weather") && !EndsWith(x, "temperature")
    ensures ForwardSearch(ForwardPatterns, x + " weather").None?
  {
    var q := x + " weather";
    forall k | 0 <= k < |q| ensures IsSpace(q[k]) ==> k == |x| {
      if k < |x| { assert q[k] == x[k]; } else { assert q[k] == " weather"[k - |x|]; }
    }
    MultiBlankPatternsMiss(q, |x|);
    KeywordBlankOnlyAsSuffix(x, "weather");
    KeywordBlankOnlyAsSuffix(x, "temperature");
    AbsentLiteralNoCapture(Phrase("weather "), q) by { assert "weather" + " " == "weather "; }
    AbsentLiteralNoCapture(Phrase("temperature "), q) by { assert "temperature" + " " == "temperature "; }
    ForwardSearchSkips(ForwardPatterns, q, 10);
    assert ForwardPatterns[10..] == [];
  }

  /** "<place> weather" gives the place, title-cased, through the reverse pattern. */
  lemma PlaceWeather(x: string)
    requires LowerLetters(x) && |x| > 2 && x !in StopWords
    requires !EndsWith(x, "weather") && !EndsWith(x, "temperature")
    ensures ExtractLocation(x + " weather") == Some(Title(x))
  {
    var q := x + " weather";
    NormalizedLowerTrimmed(q) by {
      forall k | 0 <= k < |q| ensures !IsUpper(q[k]) {
        if k < |x| { assert q[k] == x[k]; } else { assert q[k] == " weather"[k - |x|]; }
      }
      assert q[0] == x[0];
    }
    ForwardMissesPlaceWeather(x);
    ReverseCapturesPlace(x);
    CleanPlainCapture(x);
    ExtractLocationPhases(q);
  }
}
