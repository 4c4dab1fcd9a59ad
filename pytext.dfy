/**
 * The Python string operations the model relies on: `str.isspace`,
 * `str.lower`, `str.strip`, `str.split()`, `sep.join`, `str.title` and the
 * substring test `t in s`.  Case mapping and the regex word class are modelled
 * on ASCII; whitespace is Python's full `isspace` set.
 */
module PyText {

  /** Python's `str.isspace()`: what `split()`, `strip()` and the regex class `\s` treat as blank. */
  predicate IsSpace(c: char) {
    || ('\t' <= c <= '\r')
    || ('\U{1C}' <= c <= '\U{1F}')
    || c == ' ' || c == '\U{85}' || c == '\U{A0}' || c == '\U{1680}'
    || ('\U{2000}' <= c <= '\U{200A}')
    || c == '\U{2028}' || c == '\U{2029}' || c == '\U{202F}' || c == '\U{205F}' || c == '\U{3000}'
  }

  predicate IsUpper(c: char) { 'A' <= c <= 'Z' }

  predicate IsLetter(c: char) { IsUpper(c) || 'a' <= c <= 'z' }

  /** The regex class `\w`, on ASCII. */
  predicate IsWordChar(c: char) { IsLetter(c) || '0' <= c <= '9' || c == '_' }

  predicate AllSpace(s: string) { forall k :: 0 <= k < |s| ==> IsSpace(s[k]) }

  predicate NoSpace(s: string) { forall k :: 0 <= k < |s| ==> !IsSpace(s[k]) }

  function ToLower(c: char): char {
    if IsUpper(c) then (c as int + 32) as char else c
  }

  function ToUpper(c: char): char {
    if 'a' <= c <= 'z' then (c as int - 32) as char else c
  }

  /** `s.lower()` */
  function Lower(s: string): string {
    seq(|s|, i requires 0 <= i < |s| => ToLower(s[i]))
  }

  /** `s.title()`: a letter is upper-cased when it starts a run of letters, lower-cased otherwise. */
  function Title(s: string): (r: string)
    ensures |r| == |s|
  {
    seq(|s|, i requires 0 <= i < |s| =>
      if i == 0 || !IsLetter(s[i - 1]) then ToUpper(s[i]) else ToLower(s[i]))
  }

  /** `not s.strip()`: nothing but blanks (see `BlankIffStripsToEmpty`). */
  function IsBlank(s: string): bool {
    s == [] || (IsSpace(s[0]) && IsBlank(s[1..]))
  }

  /** `s.lstrip()`: drops the longest all-blank prefix. */
  function StripLeft(s: string): (r: string)
    ensures |r| <= |s| && r == s[|s| - |r|..]
    ensures forall k :: 0 <= k < |s| - |r| ==> IsSpace(s[k])
    ensures r != [] ==> !IsSpace(r[0])
  {
    if s != [] && IsSpace(s[0]) then StripLeft(s[1..]) else s
  }

  /** `s.rstrip()`: drops the longest all-blank suffix. */
  function StripRight(s: string): (r: string)
    ensures |r| <= |s| && r == s[..|r|]
    ensures forall k :: |r| <= k < |s| ==> IsSpace(s[k])
    ensures r != [] ==> !IsSpace(r[|r| - 1])
  {
    if s != [] && IsSpace(s[|s| - 1]) then StripRight(s[..|s| - 1]) else s
  }

  /** `s.strip()` */
  function Strip(s: string): string {
    StripRight(StripLeft(s))
  }

  /** Length of the longest prefix of `s` free of blanks. */
  function TokenLength(s: string): (n: nat)
    ensures n <= |s|
    ensures NoSpace(s[..n])
    ensures n == |s| || IsSpace(s[n])
  {
    if s == [] || IsSpace(s[0]) then 0 else 1 + TokenLength(s[1..])
  }

  /** `s.split()`: the maximal blank-free runs of `s`, in order. */
  function Words(s: string): (ws: seq<string>)
    ensures forall w :: w in ws ==> w != [] && NoSpace(w)
    decreases |s|
  {
    if s == [] then []
    else if IsSpace(s[0]) then Words(s[1..])
    else
      var n := TokenLength(s);
      [s[..n]] + Words(s[n..])
  }

  /** `sep.join(ws)` */
  function Join(ws: seq<string>, sep: string): string {
    if |ws| == 0 then ""
    else if |ws| == 1 then ws[0]
    else ws[0] + sep + Join(ws[1..], sep)
  }

  /** `t` occurs in `s` starting at index `i`. */
  predicate OccursAt(s: string, t: string, i: nat) {
    i + |t| <= |s| && s[i..i + |t|] == t
  }

  /** `t in s` for strings: some slice of `s` equals `t`. */
  function Contains(s: string, t: string): (b: bool)
    ensures b <==> exists i: nat :: OccursAt(s, t, i)
  {
    ContainsFrom(s, t, 0)
  }

  function ContainsFrom(s: string, t: string, from: nat): (b: bool)
    ensures b <==> exists i: nat :: from <= i && OccursAt(s, t, i)
    decreases |s| - from
  {
    if from + |t| > |s| then false
    else if OccursAt(s, t, from) then true
    else ContainsFrom(s, t, from + 1)
  }

  // ---------------------------------------------------------------------------
  // Facts about these operations
  // ---------------------------------------------------------------------------

  /** A string with no blank at either end is its own `strip()`. */
  lemma StripTrimmed(s: string)
    requires s == [] || (!IsSpace(s[0]) && !IsSpace(s[|s| - 1]))
    ensures Strip(s) == s
  {
  }

  /** `strip()` leaves nothing to strip. */
  lemma StripIdempotent(s: string)
    ensures Strip(Strip(s)) == Strip(s)
  {
    var l := StripLeft(s);
    var r := StripRight(l);
    if r != [] {
      assert r[0] == l[0];
      StripTrimmed(r);
    }
  }

  /** Lower-casing maps blanks to blanks and non-blanks to non-blanks. */
  lemma LowerKeepsSpaces(c: char)
    ensures IsSpace(ToLower(c)) <==> IsSpace(c)
  {
  }

  lemma LowerIdempotent(s: string)
    ensures Lower(Lower(s)) == Lower(s)
  {
  }

  lemma {:induction false} StripLeftLower(s: string)
    ensures StripLeft(Lower(s)) == Lower(StripLeft(s))
    decreases |s|
  {
    if s != [] {
      LowerKeepsSpaces(s[0]);
      if IsSpace(s[0]) {
        assert Lower(s)[1..] == Lower(s[1..]);
        StripLeftLower(s[1..]);
      }
    }
  }

  lemma {:induction false} StripRightLower(s: string)
    ensures StripRight(Lower(s)) == Lower(StripRight(s))
    decreases |s|
  {
    if s != [] {
      LowerKeepsSpaces(s[|s| - 1]);
      if IsSpace(s[|s| - 1]) {
        assert Lower(s)[..|s| - 1] == Lower(s[..|s| - 1]);
        StripRightLower(s[..|s| - 1]);
      }
    }
  }

  /** `s.lower().strip() == s.strip().lower()` */
  lemma StripLowerCommute(s: string)
    ensures Strip(Lower(s)) == Lower(Strip(s))
  {
    StripLeftLower(s);
    StripRightLower(StripLeft(s));
  }

  lemma {:induction false} BlankIffStripsToEmpty(s: string)
    ensures IsBlank(s) <==> Strip(s) == ""
    decreases |s|
  {
    if s != [] && IsSpace(s[0]) {
      BlankIffStripsToEmpty(s[1..]);
    }
  }

  /** Blanks in front do not change `lstrip()`. */
  lemma {:induction false} StripLeftPadded(pad: string, s: string)
    requires AllSpace(pad)
    ensures StripLeft(pad + s) == StripLeft(s)
    decreases |pad|
  {
    if pad != [] {
      assert (pad + s)[0] == pad[0];
      assert (pad + s)[1..] == pad[1..] + s;
      StripLeftPadded(pad[1..], s);
    } else {
      assert pad + s == s;
    }
  }

  /** Blanks behind do not change `rstrip()`. */
  lemma {:induction false} StripRightPadded(s: string, pad: string)
    requires AllSpace(pad)
    ensures StripRight(s + pad) == StripRight(s)
    decreases |pad|
  {
    if pad != [] {
      assert (s + pad)[|s + pad| - 1] == pad[|pad| - 1];
      assert (s + pad)[..|s + pad| - 1] == s + pad[..|pad| - 1];
      StripRightPadded(s, pad[..|pad| - 1]);
    } else {
      assert s + pad == s;
    }
  }

  /** `lstrip()` only looks at the front: once it has found a non-blank, a tail is carried along. */
  lemma {:induction false} StripLeftAppend(s: string, t: string)
    ensures StripLeft(s) != [] ==> StripLeft(s + t) == StripLeft(s) + t
    ensures StripLeft(s) == [] ==> StripLeft(s + t) == StripLeft(t)
    decreases |s|
  {
    if s != [] {
      assert (s + t)[0] == s[0];
      if IsSpace(s[0]) {
        assert (s + t)[1..] == s[1..] + t;
        StripLeftAppend(s[1..], t);
      }
    } else {
      assert s + t == t;
    }
  }

  /** Surrounding blanks do not change `strip()`. */
  lemma StripPadded(pre: string, s: string, post: string)
    requires AllSpace(pre) && AllSpace(post)
    ensures Strip(pre + s + post) == Strip(s)
  {
    assert pre + s + post == pre + (s + post);
    StripLeftPadded(pre, s + post);
    StripLeftAppend(s, post);
    if StripLeft(s) != [] {
      StripRightPadded(StripLeft(s), post);
    } else {
      StripLeftPadded(post, []);
      assert post + [] == post;
    }
  }

  /** A blank-free word followed by a blank (or nothing) is one token. */
  lemma {:induction false} TokenLengthOfWord(w: string, t: string)
    requires NoSpace(w)
    requires t == [] || IsSpace(t[0])
    ensures TokenLength(w + t) == |w|
    decreases |w|
  {
    if w != [] {
      assert (w + t)[0] == w[0];
      assert (w + t)[1..] == w[1..] + t;
      TokenLengthOfWord(w[1..], t);
    } else {
      assert w + t == t;
    }
  }

  /** `" ".join(ws).split() == ws` when every word is non-empty and blank-free. */
  lemma {:induction false} WordsOfJoin(ws: seq<string>)
    requires forall w :: w in ws ==> w != [] && NoSpace(w)
    ensures Words(Join(ws, " ")) == ws
    decreases |ws|
  {
    if |ws| == 1 {
      var w := ws[0];
      assert w + [] == w;
      TokenLengthOfWord(w, []);
      assert w[..|w|] == w && w[|w|..] == [];
    } else if |ws| > 1 {
      var w, rest := ws[0], Join(ws[1..], " ");
      var s := w + " " + rest;
      assert s == w + (" " + rest);
      TokenLengthOfWord(w, " " + rest);
      assert s[..|w|] == w;
      assert s[|w|..] == " " + rest;
      assert (" " + rest)[1..] == rest;
      assert forall v :: v in ws[1..] ==> v in ws;
      WordsOfJoin(ws[1..]);
      assert ws == [w] + ws[1..];
    }
  }

  /** Concatenation regroups freely; stated once so that loops need not rediscover it. */
  lemma AppendAssoc<T>(a: seq<T>, b: seq<T>, c: seq<T>)
    ensures a + b + c == a + (b + c)
  {
  }
}
