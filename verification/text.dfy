/** Character and string primitives with Python's `str` semantics: the
    whitespace set, `strip`, the `\s+` substitution, `split`/`join`,
    substring search, lower-casing and decimal rendering of integers. */
module Text {
  import opened Wrappers

  /** Python's `str.isspace` on one character, which is also the set `\s`
      matches in a `re` pattern over `str`. */
  predicate IsSpace(c: char) {
    || c == ' '
    || ('\U{9}' <= c <= '\U{d}')
    || ('\U{1c}' <= c <= '\U{1f}')
    || c == '\U{85}' || c == '\U{a0}' || c == '\U{1680}'
    || ('\U{2000}' <= c <= '\U{200a}')
    || c == '\U{2028}' || c == '\U{2029}' || c == '\U{202f}' || c == '\U{205f}'
    || c == '\U{3000}'
  }

  /** The non-whitespace characters of `s`, in order. */
  function NonSpace(s: string): (r: string)
    ensures |r| <= |s|
    ensures forall i :: 0 <= i < |r| ==> !IsSpace(r[i])
  {
    if s == [] then []
    else (if IsSpace(s[0]) then [] else [s[0]]) + NonSpace(s[1..])
  }

  lemma {:induction false} NonSpaceAppend(a: string, b: string)
    ensures NonSpace(a + b) == NonSpace(a) + NonSpace(b)
    decreases |a|
  {
    if a == [] {
      assert a + b == b;
    } else {
      assert (a + b)[0] == a[0];
      assert (a + b)[1..] == a[1..] + b;
      NonSpaceAppend(a[1..], b);
    }
  }

  lemma {:induction false} NonSpaceOfSpaces(s: string)
    requires forall i :: 0 <= i < |s| ==> IsSpace(s[i])
    ensures NonSpace(s) == []
    decreases |s|
  {
    if s != [] {
      NonSpaceOfSpaces(s[1..]);
    }
  }

  /** Every whitespace character is a plain space and no two whitespace
      characters are adjacent. */
  predicate SingleSpaced(s: string) {
    && (forall i :: 0 <= i < |s| && IsSpace(s[i]) ==> s[i] == ' ')
    && (forall i :: 0 <= i < |s| - 1 ==> !(IsSpace(s[i]) && IsSpace(s[i + 1])))
  }

  /** Neither end is whitespace. */
  predicate Trimmed(s: string) {
    s == [] || (!IsSpace(s[0]) && !IsSpace(s[|s| - 1]))
  }

  /** The shape `re.sub(r'\s+', ' ', s).strip()` always produces. */
  predicate Collapsed(s: string) {
    SingleSpaced(s) && Trimmed(s)
  }

  /** Python `s.lstrip()`. */
  function StripLeft(s: string): (r: string)
    ensures |r| <= |s| && r == s[|s| - |r|..]
    ensures r == [] || !IsSpace(r[0])
    ensures forall i :: 0 <= i < |s| - |r| ==> IsSpace(s[i])
    decreases |s|
  {
    if s != [] && IsSpace(s[0]) then StripLeft(s[1..]) else s
  }

  /** Python `s.rstrip()`. */
  function StripRight(s: string): (r: string)
    ensures |r| <= |s| && r == s[..|r|]
    ensures r == [] || !IsSpace(r[|r| - 1])
    ensures forall i :: |r| <= i < |s| ==> IsSpace(s[i])
    decreases |s|
  {
    if s != [] && IsSpace(s[|s| - 1]) then StripRight(s[..|s| - 1]) else s
  }

  /** Python `s.strip()`: the result keeps every non-whitespace character,
      has no whitespace at either end, and is empty exactly when `s` is
      all whitespace. */
  function Strip(s: string): (r: string)
    ensures |r| <= |s|
    ensures Trimmed(r)
    ensures NonSpace(r) == NonSpace(s)
    ensures r == [] <==> forall i :: 0 <= i < |s| ==> IsSpace(s[i])
    ensures SingleSpaced(s) ==> SingleSpaced(r)
    ensures Trimmed(s) ==> r == s
    ensures forall i :: 0 <= i < |r| ==> r[i] in s
    ensures Words(r) == Words(s)
  {
    var left := StripLeft(s);
    var r := StripRight(left);
    StripFacts(s, |s| - |left|, left, r);
    StripWords(s);
    r
  }

  /** Stripping both ends keeps the words. */
  lemma StripWords(s: string)
    ensures Words(StripRight(StripLeft(s))) == Words(s)
  {
    StripRightWords(StripLeft(s));
    WordsOfStripLeft(s);
  }

  /** Stripping the right end keeps the words. */
  lemma StripRightWords(s: string)
    ensures Words(StripRight(s)) == Words(s)
  {
    var r := StripRight(s);
    var tail := s[|r|..];
    forall i | 0 <= i < |tail|
      ensures IsSpace(tail[i])
    {
      assert tail[i] == s[|r| + i];
    }
    assert s == r + tail;
    WordsDropTrailing(r, tail);
  }

  /** `r` is `s` with `k` leading and some trailing whitespace removed,
      and neither end of `r` is whitespace. */
  lemma StripFacts(s: string, k: nat, left: string, r: string)
    requires k <= |s| && left == s[k..] && |r| <= |left| && r == left[..|r|]
    requires forall i :: 0 <= i < k ==> IsSpace(s[i])
    requires forall i :: |r| <= i < |left| ==> IsSpace(left[i])
    requires left == [] || !IsSpace(left[0])
    requires r == [] || !IsSpace(r[|r| - 1])
    ensures NonSpace(r) == NonSpace(s)
    ensures r == [] <==> forall i :: 0 <= i < |s| ==> IsSpace(s[i])
    ensures SingleSpaced(s) ==> SingleSpaced(r)
    ensures Trimmed(s) ==> r == s
    ensures forall i :: 0 <= i < |r| ==> r[i] in s
  {
    NonSpaceDropSpaces(s, k);
    NonSpaceDropTrailing(left, |r|);
    assert r == s[k..k + |r|];
    if SingleSpaced(s) {
      SingleSpacedSlice(s, k, k + |r|);
    }
    forall i | 0 <= i < |r|
      ensures r[i] in s
    {
      assert r[i] == s[k + i];
    }
  }

  /** Dropping leading whitespace keeps the non-whitespace characters. */
  lemma {:induction false} NonSpaceDropSpaces(s: string, k: nat)
    requires k <= |s|
    requires forall i :: 0 <= i < k ==> IsSpace(s[i])
    ensures NonSpace(s[k..]) == NonSpace(s)
  {
    var head := s[..k];
    forall i | 0 <= i < |head|
      ensures IsSpace(head[i])
    {
      assert head[i] == s[i];
    }
    NonSpaceOfSpaces(head);
    assert s == head + s[k..];
    NonSpaceAppend(head, s[k..]);
  }

  /** Dropping trailing whitespace keeps the non-whitespace characters. */
  lemma {:induction false} NonSpaceDropTrailing(s: string, n: nat)
    requires n <= |s|
    requires forall i :: n <= i < |s| ==> IsSpace(s[i])
    ensures NonSpace(s[..n]) == NonSpace(s)
  {
    var tail := s[n..];
    forall i | 0 <= i < |tail|
      ensures IsSpace(tail[i])
    {
      assert tail[i] == s[n + i];
    }
    NonSpaceOfSpaces(tail);
    assert s == s[..n] + tail;
    NonSpaceAppend(s[..n], tail);
  }

  /** A slice of a single-spaced string is single-spaced. */
  lemma SingleSpacedSlice(s: string, a: nat, b: nat)
    requires a <= b <= |s| && SingleSpaced(s)
    ensures SingleSpaced(s[a..b])
  {
    var t := s[a..b];
    forall i | 0 <= i < |t|
      ensures t[i] == s[a + i]
    {
    }
  }

  /** `r` is `s` with every maximal whitespace run replaced by one plain
      space: single-spaced, the same non-whitespace characters, empty
      exactly when `s` is, starting with whitespace exactly when `s`
      does, no longer than `s`, and made of spaces and characters of `s`. */
  predicate Squeezed(r: string, s: string) {
    && |r| <= |s|
    && SingleSpaced(r)
    && NonSpace(r) == NonSpace(s)
    && (s == [] <==> r == [])
    && (s != [] ==> (IsSpace(r[0]) <==> IsSpace(s[0])))
    && (forall i :: 0 <= i < |r| ==> r[i] == ' ' || r[i] in s)
  }

  /** Python `re.sub(r'\s+', ' ', s)`. */
  function SqueezeSpaces(s: string): (r: string)
    ensures Squeezed(r, s)
    decreases |s|
  {
    if s == [] then []
    else if IsSpace(s[0]) then
      var rest := StripLeft(s);
      var t := SqueezeSpaces(rest);
      SqueezeSpaceRun(s, |s| - |rest|, t);
      [' '] + t
    else
      var t := SqueezeSpaces(s[1..]);
      SqueezeKeepChar(s, t);
      [s[0]] + t
  }

  /** A whitespace run of length `k` in front of a squeezed remainder
      becomes one space. */
  lemma SqueezeSpaceRun(s: string, k: nat, t: string)
    requires 1 <= k <= |s| && IsSpace(s[0])
    requires forall i :: 0 <= i < k ==> IsSpace(s[i])
    requires k < |s| ==> !IsSpace(s[k])
    requires Squeezed(t, s[k..])
    ensures Squeezed([' '] + t, s)
  {
    NonSpaceDropSpaces(s, k);
    NonSpaceAppend([' '], t);
    var r := [' '] + t;
    forall i | 0 <= i < |r|
      ensures r[i] == ' ' || r[i] in s
    {
      if i > 0 && r[i] != ' ' {
        assert r[i] == t[i - 1];
        assert t[i - 1] in s[k..];
      }
    }
  }

  /** A non-space character in front of a squeezed remainder is kept. */
  lemma SqueezeKeepChar(s: string, t: string)
    requires s != [] && !IsSpace(s[0])
    requires Squeezed(t, s[1..])
    ensures Squeezed([s[0]] + t, s)
  {
    NonSpaceAppend([s[0]], s[1..]);
    NonSpaceAppend([s[0]], t);
    assert s == [s[0]] + s[1..];
    var r := [s[0]] + t;
    forall i | 0 <= i < |r|
      ensures r[i] == ' ' || r[i] in s
    {
      if i > 0 && r[i] != ' ' {
        assert r[i] == t[i - 1];
        assert t[i - 1] in s[1..];
      }
    }
  }

  /** Squeezing a single-spaced string changes nothing. */
  lemma {:induction false} SqueezeSingleSpaced(s: string)
    ensures SingleSpaced(s) ==> SqueezeSpaces(s) == s
    decreases |s|
  {
    if s != [] && SingleSpaced(s) {
      SingleSpacedSlice(s, 1, |s|);
      SqueezeSingleSpaced(s[1..]);
      SqueezeFirstStep(s);
      assert s == [s[0]] + s[1..];
    }
  }

  /** The first step of squeezing a single-spaced string keeps its first
      character and continues with the rest. */
  lemma SqueezeFirstStep(s: string)
    requires s != [] && SingleSpaced(s)
    ensures SqueezeSpaces(s) == [s[0]] + SqueezeSpaces(s[1..])
  {
    if IsSpace(s[0]) {
      SpaceThenWord(s);
    }
  }

  /** In a single-spaced string a leading space is followed by a
      non-space, so stripping the left end removes exactly one space. */
  lemma SpaceThenWord(s: string)
    requires s != [] && SingleSpaced(s) && IsSpace(s[0])
    ensures s[0] == ' ' && StripLeft(s) == s[1..]
  {
    assert |s| == 1 || !IsSpace(s[1]);
    assert StripLeft(s[1..]) == s[1..];
  }

  /** Python `re.sub(r'\s+', ' ', s).strip()`: collapsed, with the words
      of `s` in order. */
  function CollapseSpaces(s: string): (r: string)
    ensures |r| <= |s|
    ensures Collapsed(r)
    ensures Words(r) == Words(s)
    ensures NonSpace(r) == NonSpace(s)
    ensures Collapsed(s) ==> r == s
    ensures forall i :: 0 <= i < |r| ==> r[i] == ' ' || r[i] in s
  {
    var t := SqueezeSpaces(s);
    SqueezeSingleSpaced(s);
    WordsOfSqueeze(s);
    var r := Strip(t);
    CharsThrough(s, t, r);
    r
  }

  /** Characters of `r` drawn from `t`, whose characters are spaces or
      drawn from `s`, are spaces or drawn from `s`. */
  lemma CharsThrough(s: string, t: string, r: string)
    requires forall i :: 0 <= i < |t| ==> t[i] == ' ' || t[i] in s
    requires forall i :: 0 <= i < |r| ==> r[i] in t
    ensures forall i :: 0 <= i < |r| ==> r[i] == ' ' || r[i] in s
  {
    forall i | 0 <= i < |r|
      ensures r[i] == ' ' || r[i] in s
    {
      var j :| 0 <= j < |t| && t[j] == r[i];
    }
  }

  /** Collapsing whitespace is Python's `' '.join(s.split())`. */
  lemma CollapseIsJoinOfWords(s: string)
    ensures CollapseSpaces(s) == Join(Words(s))
  {
    JoinWordsOfCollapsed(CollapseSpaces(s));
  }

  /** A leading whitespace character does not change the words. */
  lemma WordsSkipSpace(s: string)
    requires s != [] && IsSpace(s[0])
    ensures Words(s) == Words(s[1..])
  {
  }

  /** Leading whitespace does not change the words. */
  lemma {:induction false} WordsOfStripLeft(s: string)
    ensures Words(StripLeft(s)) == Words(s)
    decreases |s|
  {
    if s != [] && IsSpace(s[0]) {
      WordsOfStripLeft(s[1..]);
    }
  }

  /** A non-space character followed by whitespace, or by nothing, is a
      word of its own. */
  lemma WordsConsAlone(c: char, s: string)
    requires !IsSpace(c) && (s == [] || IsSpace(s[0]))
    ensures Words([c] + s) == [[c]] + Words(s)
  {
    var t := [c] + s;
    assert t[1..] == s;
    assert TakeWord(s) == [];
    assert TakeWord(t) == [c];
  }

  /** A non-space character in front of a word joins that word. */
  lemma WordsConsJoin(c: char, s: string)
    requires !IsSpace(c) && s != [] && !IsSpace(s[0])
    ensures Words(s) != []
    ensures Words([c] + s) == [[c] + Words(s)[0]] + Words(s)[1..]
  {
    var t := [c] + s;
    var w := TakeWord(s);
    assert t[0] == c && t[1..] == s;
    assert TakeWord(t) == [c] + w;
    assert t[|TakeWord(t)|..] == s[|w|..];
    WordsOfWordStart(s);
    WordsOfWordStart(t);
    var ws := Words(s);
    assert ws[0] == w && ws[1..] == Words(s[|w|..]);
  }

  /** Squeezing whitespace runs keeps the words. */
  lemma {:induction false} WordsOfSqueeze(s: string)
    ensures Words(SqueezeSpaces(s)) == Words(s)
    decreases |s|
  {
    if s != [] && IsSpace(s[0]) {
      var rest := StripLeft(s);
      var t := SqueezeSpaces(rest);
      var q := [' '] + t;
      assert SqueezeSpaces(s) == q;
      assert q[1..] == t;
      WordsSkipSpace(q);
      WordsOfSqueeze(rest);
      WordsOfStripLeft(s);
    } else if s != [] {
      var tail := s[1..];
      var t := SqueezeSpaces(tail);
      assert SqueezeSpaces(s) == [s[0]] + t;
      assert s == [s[0]] + tail;
      WordsOfSqueeze(tail);
      if tail == [] || IsSpace(tail[0]) {
        WordsConsAlone(s[0], t);
        WordsConsAlone(s[0], tail);
      } else {
        WordsConsJoin(s[0], t);
        WordsConsJoin(s[0], tail);
      }
    }
  }

  /** All-whitespace text has no words. */
  lemma {:induction false} WordsOfSpaces(sp: string)
    requires forall i :: 0 <= i < |sp| ==> IsSpace(sp[i])
    ensures Words(sp) == []
    decreases |sp|
  {
    if sp != [] {
      WordsOfSpaces(sp[1..]);
    }
  }

  /** Trailing whitespace does not change the words. */
  lemma {:induction false} WordsDropTrailing(a: string, sp: string)
    requires forall i :: 0 <= i < |sp| ==> IsSpace(sp[i])
    ensures Words(a + sp) == Words(a)
    decreases |a|
  {
    if a == [] {
      assert a + sp == sp;
      WordsOfSpaces(sp);
    } else {
      var x := a + sp;
      var rest := a[1..] + sp;
      assert x[0] == a[0];
      assert x[1..] == rest;
      WordsDropTrailing(a[1..], sp);
      if IsSpace(a[0]) {
        WordsSkipSpace(x);
        WordsSkipSpace(a);
      } else {
        assert x == [a[0]] + rest;
        assert a == [a[0]] + a[1..];
        if a[1..] == [] {
          assert rest == sp;
          WordsConsAlone(a[0], sp);
          WordsConsAlone(a[0], a[1..]);
        } else if IsSpace(a[1]) {
          assert rest[0] == a[1];
          WordsConsAlone(a[0], rest);
          WordsConsAlone(a[0], a[1..]);
        } else {
          assert rest[0] == a[1];
          WordsConsJoin(a[0], rest);
          WordsConsJoin(a[0], a[1..]);
        }
      }
    }
  }

  /** The longest whitespace-free prefix of `s`. */
  function TakeWord(s: string): (w: string)
    ensures |w| <= |s| && w == s[..|w|]
    ensures forall i :: 0 <= i < |w| ==> !IsSpace(w[i])
    ensures |w| == |s| || IsSpace(s[|w|])
    ensures s != [] && !IsSpace(s[0]) ==> |w| >= 1
    decreases |s|
  {
    if s == [] || IsSpace(s[0]) then [] else [s[0]] + TakeWord(s[1..])
  }

  /** Python `s.split()` with no separator: the maximal whitespace-free
      pieces of `s`, in order. */
  function Words(s: string): (ws: seq<string>)
    decreases |s|
  {
    if s == [] then []
    else if IsSpace(s[0]) then Words(s[1..])
    else
      var w := TakeWord(s);
      [w] + Words(s[|w|..])
  }

  /** Python `' '.join(ws)`. */
  function Join(ws: seq<string>): string
  {
    if |ws| == 0 then []
    else if |ws| == 1 then ws[0]
    else ws[0] + " " + Join(ws[1..])
  }

  /** Splitting a collapsed string into words and joining them with single
      spaces gives the string back. */
  lemma {:induction false} JoinWordsOfCollapsed(s: string)
    requires Collapsed(s)
    ensures Join(Words(s)) == s
    ensures s != [] ==> |Words(s)| >= 1
    decreases |s|
  {
    if s != [] {
      var w := TakeWord(s);
      var rest := s[|w|..];
      WordsOfWordStart(s);
      if rest == [] {
        assert s == w;
      } else {
        var tail := s[|w| + 1..];
        FirstWordRestCollapsed(s, w);
        FirstWordRestWords(s, w);
        FirstWordSplit(s, w);
        JoinWordsOfCollapsed(tail);
      }
    }
  }

  /** A string that starts with a non-space character splits into its first
      word followed by the words of what comes after it. */
  lemma WordsOfWordStart(s: string)
    requires s != [] && !IsSpace(s[0])
    ensures Words(s) == [TakeWord(s)] + Words(s[|TakeWord(s)|..])
  {
  }

  /* In a collapsed string, a first word that does not reach the end is
     followed by one space and a collapsed, non-empty remainder. */

  lemma FirstWordRestCollapsed(s: string, w: string)
    requires Collapsed(s) && s != [] && w == TakeWord(s) && |w| < |s|
    ensures |w| + 1 < |s| && s[|w|] == ' '
    ensures Collapsed(s[|w| + 1..])
  {
    SpaceAfterWord(s, |w|);
    CollapsedSuffix(s, |w| + 1);
  }

  lemma FirstWordRestWords(s: string, w: string)
    requires |w| + 1 < |s| && s[|w|] == ' '
    ensures Words(s[|w|..]) == Words(s[|w| + 1..])
  {
    var rest := s[|w|..];
    assert rest[0] == s[|w|];
    assert rest[1..] == s[|w| + 1..];
    WordsSkipSpace(rest);
  }

  lemma FirstWordSplit(s: string, w: string)
    requires |w| + 1 < |s| && w == s[..|w|] && s[|w|] == ' '
    ensures s == w + " " + s[|w| + 1..]
  {
    var k := |w|;
    assert s[..k + 1] == w + " ";
    assert s == s[..k + 1] + s[k + 1..];
  }

  lemma SpaceAfterWord(s: string, k: nat)
    requires Collapsed(s) && k < |s| && IsSpace(s[k])
    ensures k + 1 < |s| && s[k] == ' ' && !IsSpace(s[k + 1])
  {
  }

  lemma CollapsedSuffix(s: string, k: nat)
    requires Collapsed(s) && k < |s| && !IsSpace(s[k])
    ensures Collapsed(s[k..])
  {
    var t := s[k..];
    forall i | 0 <= i < |t|
      ensures t[i] == s[k + i]
    {
    }
  }

  /** Python's substring test `k in s`. */
  predicate Contains(s: string, k: string)
    decreases |s|
  {
    k <= s || (s != [] && Contains(s[1..], k))
  }

  /** Text shorter than `k` does not contain it. */
  lemma {:induction false} ShortNotContains(s: string, k: string)
    requires |s| < |k|
    ensures !Contains(s, k)
    decreases |s|
  {
    if s != [] {
      ShortNotContains(s[1..], k);
    }
  }

  /** Python `s[:n]` for a non-negative `n`. */
  function Take(s: string, n: nat): (r: string)
    ensures r <= s
    ensures |r| == if n < |s| then n else |s|
  {
    if n < |s| then s[..n] else s
  }

  /** `r` is `s` shown in at most `limit` characters: `s` itself when it
      fits, otherwise its first `limit - 3` characters followed by "...". */
  predicate Ellipsized(r: string, s: string, limit: nat)
    requires limit >= 3
  {
    && |r| <= limit
    && (|s| <= limit ==> r == s)
    && (|s| > limit ==> |r| == limit && r[..limit - 3] == s[..limit - 3] && r[limit - 3..] == "...")
  }

  /** Python `s[:limit - 3] + "..."` when `s` is longer than `limit`. */
  function Ellipsize(s: string, limit: nat): (r: string)
    requires limit >= 3
    ensures Ellipsized(r, s, limit)
  {
    if |s| > limit then s[..limit - 3] + "..." else s
  }

  /** Python `str.lower` on one character, for the Latin-1 range. */
  function LowerChar(c: char): char {
    if 'A' <= c <= 'Z' then (c as int + 32) as char
    else if '\U{c0}' <= c <= '\U{de}' && c != '\U{d7}' then (c as int + 32) as char
    else c
  }

  /** Python `str.isupper` on one character, for the Latin-1 range. */
  predicate IsUpper(c: char) {
    ('A' <= c <= 'Z') || ('\U{c0}' <= c <= '\U{de}' && c != '\U{d7}')
  }

  /** Python `s.lower()`, character by character. */
  function ToLower(s: string): (r: string)
    ensures |r| == |s|
    ensures forall i :: 0 <= i < |s| ==> r[i] == LowerChar(s[i])
  {
    seq(|s|, i requires 0 <= i < |s| => LowerChar(s[i]))
  }

  predicate IsDigit(c: char) {
    '0' <= c <= '9'
  }

  predicate AllDigits(s: string) {
    forall i :: 0 <= i < |s| ==> IsDigit(s[i])
  }

  function DigitChar(d: nat): (c: char)
    requires d < 10
    ensures IsDigit(c)
  {
    ('0' as int + d) as char
  }

  /** Python `str(n)` for a non-negative integer. */
  function DigitsOf(n: nat): (r: string)
    ensures |r| >= 1 && AllDigits(r)
    decreases n
  {
    if n < 10 then [DigitChar(n)] else DigitsOf(n / 10) + [DigitChar(n % 10)]
  }

  /** The number a string of decimal digits denotes: Python `int(s)`. */
  function ValueOf(s: string): nat
    requires AllDigits(s)
    decreases |s|
  {
    if s == [] then 0 else ValueOf(s[..|s| - 1]) * 10 + (s[|s| - 1] as int - '0' as int)
  }

  function Zeros(n: nat): (r: string)
    ensures |r| == n && AllDigits(r)
  {
    seq(n, i => '0')
  }

  /** Python `f"{n:0{width}d}"` for a non-negative `n`: at least `width`
      digits, padded with leading zeros. */
  function ZeroPad(n: nat, width: nat): (r: string)
    ensures AllDigits(r)
    ensures |r| >= width
  {
    var d := DigitsOf(n);
    (if |d| < width then Zeros(width - |d|) else []) + d
  }

  lemma {:induction false} ValueOfDigitsOf(n: nat)
    ensures ValueOf(DigitsOf(n)) == n
    decreases n
  {
    if n >= 10 {
      var d := DigitsOf(n / 10) + [DigitChar(n % 10)];
      assert d[..|d| - 1] == DigitsOf(n / 10);
      ValueOfDigitsOf(n / 10);
    }
  }

  lemma {:induction false} ValueOfZeros(n: nat)
    ensures ValueOf(Zeros(n)) == 0
    decreases n
  {
    if n > 0 {
      assert Zeros(n)[..n - 1] == Zeros(n - 1);
      ValueOfZeros(n - 1);
    }
  }

  lemma {:induction false} ValueOfLeadingZeros(z: nat, s: string)
    requires AllDigits(s)
    ensures ValueOf(Zeros(z) + s) == ValueOf(s)
    decreases |s|
  {
    if s == [] {
      assert Zeros(z) + s == Zeros(z);
      ValueOfZeros(z);
    } else {
      var t := Zeros(z) + s;
      assert t[..|t| - 1] == Zeros(z) + s[..|s| - 1];
      ValueOfLeadingZeros(z, s[..|s| - 1]);
    }
  }

  /** Reading a zero-padded rendering back gives the number. */
  lemma ValueOfZeroPad(n: nat, width: nat)
    ensures ValueOf(ZeroPad(n, width)) == n
  {
    var d := DigitsOf(n);
    ValueOfDigitsOf(n);
    if |d| < width {
      ValueOfLeadingZeros(width - |d|, d);
    } else {
      assert ZeroPad(n, width) == d;
    }
  }

  /** Python `int(s)` restricted to plain digit strings. */
  function ParseNat(s: string): (r: Option<nat>)
    ensures r.Some? <==> s != [] && AllDigits(s)
  {
    if s != [] && AllDigits(s) then Some(ValueOf(s)) else None
  }

  /** Rendering a number in decimal and parsing it back gives the number. */
  lemma ParseDigitsOf(n: nat)
    ensures ParseNat(DigitsOf(n)) == Some(n)
  {
    ValueOfDigitsOf(n);
  }
}
