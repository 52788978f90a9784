/** `SmartstoreUploader.clean_text_for_excel` (smartstore_uploader.py):
    the text filter every spreadsheet cell goes through. */
module Sanitizer {
  import opened Text

  /** Step 1: every code point at or above U+10000. */
  predicate Astral(c: char) {
    c >= '\U{10000}'
  }

  /** Step 2: the emoji blocks of the pattern that lie below U+10000
      (Dingbats, variation selectors, miscellaneous symbols, symbols and
      arrows); its other ranges are astral and already gone after step 1. */
  predicate EmojiBlock(c: char) {
    || ('\U{2700}' <= c <= '\U{27bf}')
    || ('\U{fe00}' <= c <= '\U{fe0f}')
    || ('\U{2600}' <= c <= '\U{26ff}')
    || ('\U{2b00}' <= c <= '\U{2bff}')
  }

  /** Step 3: the trade mark, registered, copyright and service mark glyphs. */
  predicate MarkGlyph(c: char) {
    c == '\U{2122}' || c == '\U{ae}' || c == '\U{a9}' || c == '\U{2120}'
  }

  /** Step 4: C0 controls other than tab, line feed and carriage return,
      plus DEL. */
  predicate ControlChar(c: char) {
    || c <= '\U{8}'
    || c == '\U{b}' || c == '\U{c}'
    || ('\U{e}' <= c <= '\U{1f}')
    || c == '\U{7f}'
  }

  /** A character one of the four deletion steps removes. */
  predicate Removed(c: char) {
    Astral(c) || EmojiBlock(c) || MarkGlyph(c) || ControlChar(c)
  }

  /** Steps 1 to 4: each deletes single characters, so together they keep
      exactly the characters none of them matches, in order. */
  function RemoveSymbols(s: string): (r: string)
    ensures |r| <= |s|
    ensures forall i :: 0 <= i < |r| ==> !Removed(r[i]) && r[i] in s
    ensures forall i :: 0 <= i < |s| && !Removed(s[i]) ==> s[i] in r
    decreases |s|
  {
    if s == [] then []
    else
      var rest := RemoveSymbols(s[1..]);
      assert forall i :: 1 <= i < |s| ==> s[i] == s[1..][i - 1];
      (if Removed(s[0]) then [] else [s[0]]) + rest
  }

  /** The deletions act on each character alone: text removed in two
      pieces gives the two results joined, in order. */
  lemma {:induction false} RemoveSymbolsAppend(a: string, b: string)
    ensures RemoveSymbols(a + b) == RemoveSymbols(a) + RemoveSymbols(b)
    decreases |a|
  {
    if a == [] {
      assert a + b == b;
    } else {
      assert (a + b)[0] == a[0];
      assert (a + b)[1..] == a[1..] + b;
      RemoveSymbolsAppend(a[1..], b);
    }
  }

  /** One character is dropped exactly when a deletion step matches it. */
  lemma RemoveSymbolsChar(c: char)
    ensures RemoveSymbols([c]) == if Removed(c) then [] else [c]
  {
  }

  lemma {:induction false} RemoveSymbolsKeepsClean(s: string)
    requires forall i :: 0 <= i < |s| ==> !Removed(s[i])
    ensures RemoveSymbols(s) == s
    decreases |s|
  {
    if s != [] {
      RemoveSymbolsKeepsClean(s[1..]);
    }
  }

  /** What the sanitiser produces: collapsed spacing and none of the
      removed characters. */
  predicate IsClean(s: string) {
    Collapsed(s) && forall i :: 0 <= i < |s| ==> !Removed(s[i])
  }

  /** No emoji, mark glyph or astral character, and nothing below U+0020
      or equal to DEL: tab, line feed and carriage return are gone too. */
  predicate Printable(s: string) {
    forall i :: 0 <= i < |s| ==>
      && !Astral(s[i]) && !EmojiBlock(s[i]) && !MarkGlyph(s[i])
      && s[i] >= ' ' && s[i] != '\U{7f}'
  }

  /** `clean_text_for_excel`: the four deletions, then
      `re.sub(r'\s+', ' ', text).strip()`. */
  function CleanTextForExcel(text: string): (r: string)
    ensures text == [] ==> r == []
    ensures |r| <= |text|
    ensures IsClean(r)
    ensures Words(r) == Words(RemoveSymbols(text))
    ensures NonSpace(r) == NonSpace(RemoveSymbols(text))
    ensures Printable(r)
  {
    if text == [] then []
    else
      var kept := RemoveSymbols(text);
      var r := CollapseSpaces(kept);
      CollapsedKeptIsClean(kept, r);
      r
  }

  /** Collapsing the spacing of text with nothing left to remove gives
      clean, printable text. */
  lemma CollapsedKeptIsClean(kept: string, r: string)
    requires forall i :: 0 <= i < |kept| ==> !Removed(kept[i])
    requires Collapsed(r)
    requires forall i :: 0 <= i < |r| ==> r[i] == ' ' || r[i] in kept
    ensures IsClean(r)
    ensures Printable(r)
  {
    forall i | 0 <= i < |r|
      ensures r[i] == ' ' || !Removed(r[i])
    {
      if r[i] != ' ' {
        var j :| 0 <= j < |kept| && kept[j] == r[i];
      }
    }
    CollapsedCleanIsPrintable(r);
  }

  /** With tab, line feed and carriage return turned into spaces, nothing
      below U+0020 survives the control-character step. */
  lemma CollapsedCleanIsPrintable(r: string)
    requires Collapsed(r)
    requires forall i :: 0 <= i < |r| ==> r[i] == ' ' || !Removed(r[i])
    ensures forall i :: 0 <= i < |r| ==> !Removed(r[i]) && r[i] >= ' '
  {
    forall i | 0 <= i < |r|
      ensures !Removed(r[i]) && r[i] >= ' '
    {
      if IsSpace(r[i]) {
        assert r[i] == ' ';
      }
    }
  }

  /** The sanitiser is `' '.join(t.split())` of the text `t` left after
      the deletions. */
  lemma CleanTextIsJoinOfWords(text: string)
    ensures CleanTextForExcel(text) == Join(Words(RemoveSymbols(text)))
  {
    CollapseIsJoinOfWords(RemoveSymbols(text));
  }

  /** Clean text passes through the sanitiser unchanged. */
  lemma CleanTextFixesClean(s: string)
    requires IsClean(s)
    ensures CleanTextForExcel(s) == s
  {
    RemoveSymbolsKeepsClean(s);
  }

  /** Sanitising twice is the same as sanitising once. */
  lemma CleanTextIdempotent(s: string)
    ensures CleanTextForExcel(CleanTextForExcel(s)) == CleanTextForExcel(s)
  {
    CleanTextFixesClean(CleanTextForExcel(s));
  }
}
