/** `SmartstoreUploader.clean_and_translate_title` (smartstore_uploader.py):
    brand extraction, optional translation of the product name, and the
    100-character title limit. */
module Titles {
  import opened Wrappers
  import opened Text

  /** The smartstore title limit. */
  const MaxTitleLength: nat := 100

  /** The glyphs this step deletes: trade mark, registered and copyright.
      The service mark is left for the spreadsheet sanitiser. */
  predicate TitleGlyph(c: char) {
    c == '\U{2122}' || c == '\U{ae}' || c == '\U{a9}'
  }

  function RemoveTitleGlyphs(s: string): (r: string)
    ensures |r| <= |s|
    ensures forall i :: 0 <= i < |r| ==> !TitleGlyph(r[i]) && r[i] in s
    ensures forall c :: c in r ==> !TitleGlyph(c)
    decreases |s|
  {
    if s == [] then []
    else (if TitleGlyph(s[0]) then [] else [s[0]]) + RemoveTitleGlyphs(s[1..])
  }

  /** The glyph deletion acts on each character alone. */
  lemma {:induction false} RemoveTitleGlyphsAppend(a: string, b: string)
    ensures RemoveTitleGlyphs(a + b) == RemoveTitleGlyphs(a) + RemoveTitleGlyphs(b)
    decreases |a|
  {
    if a == [] {
      assert a + b == b;
    } else {
      assert (a + b)[0] == a[0];
      assert (a + b)[1..] == a[1..] + b;
      RemoveTitleGlyphsAppend(a[1..], b);
    }
  }

  /** One character is dropped exactly when it is one of the three glyphs. */
  lemma RemoveTitleGlyphsChar(c: char)
    ensures RemoveTitleGlyphs([c]) == if TitleGlyph(c) then [] else [c]
  {
  }

  /** `cleaned_title`: glyphs deleted, whitespace runs collapsed, ends
      stripped; the words are those of the title without its glyphs. */
  function CleanTitle(title: string): (r: string)
    ensures |r| <= |title|
    ensures Collapsed(r)
    ensures Words(r) == Words(RemoveTitleGlyphs(title))
    ensures forall i :: 0 <= i < |r| ==> !TitleGlyph(r[i])
    ensures NonSpace(r) == NonSpace(RemoveTitleGlyphs(title))
  {
    var kept := RemoveTitleGlyphs(title);
    var r := CollapseSpaces(kept);
    CollapseKeepsNoGlyph(kept, r);
    r
  }

  /** Collapsing whitespace only adds plain spaces, so no glyph comes
      back. */
  lemma CollapseKeepsNoGlyph(kept: string, r: string)
    requires forall c :: c in kept ==> !TitleGlyph(c)
    requires forall i :: 0 <= i < |r| ==> r[i] == ' ' || r[i] in kept
    ensures forall i :: 0 <= i < |r| ==> !TitleGlyph(r[i])
  {
  }

  datatype BrandSplit = BrandSplit(brand: string, productName: string)

  /** The brand heuristic on the cleaned title: with more than one word, a
      first word longer than two characters that starts with an upper-case
      letter is the brand and the other words, re-joined, are the product
      name; otherwise there is no brand and the whole title is the name. */
  function SplitBrand(cleaned: string): BrandSplit
  {
    var words := Words(cleaned);
    if |words| > 1 && |words[0]| > 2 && IsUpper(words[0][0]) then
      BrandSplit(words[0], Join(words[1..]))
    else
      BrandSplit("", cleaned)
  }

  /** The brand rule, read on the cleaned title itself: its first word
      does not reach the end, is longer than two characters, and starts
      with an upper-case letter. */
  predicate HasBrand(cleaned: string) {
    var w := TakeWord(cleaned);
    |w| < |cleaned| && |w| > 2 && IsUpper(cleaned[0])
  }

  /** A title gets a brand exactly when the brand rule holds. The brand is
      then the first word, with no whitespace in it, and brand, one space
      and product name give back the cleaned title. Without a brand the
      product name is the whole cleaned title. */
  lemma SplitBrandRoundTrip(cleaned: string)
    requires Collapsed(cleaned)
    ensures var b := SplitBrand(cleaned);
      && (b.brand != "" <==> HasBrand(cleaned))
      && (forall i :: 0 <= i < |b.brand| ==> !IsSpace(b.brand[i]))
      && (b.brand == "" ==> b.productName == cleaned)
      && (b.brand != "" ==>
            && b.brand == TakeWord(cleaned)
            && cleaned == b.brand + " " + b.productName
            && b.productName != "")
  {
    if cleaned != [] {
      var w := TakeWord(cleaned);
      WordsOfWordStart(cleaned);
      if |w| == |cleaned| {
        assert cleaned[|w|..] == [];
      } else {
        var tail := cleaned[|w| + 1..];
        FirstWordRestCollapsed(cleaned, w);
        FirstWordRestWords(cleaned, w);
        FirstWordSplit(cleaned, w);
        JoinWordsOfCollapsed(tail);
        assert Words(cleaned)[1..] == Words(tail);
        assert tail[|tail| - 1] == cleaned[|cleaned| - 1];
      }
    }
  }

  datatype TitleInfo = TitleInfo(brand: string, productName: string, finalTitle: string, originalTitle: string)

  /** The title the translated branch builds: brand and translated name
      separated by one space, or the translated name alone. */
  function WithBrand(brand: string, name: string): string {
    if brand != "" then brand + " " + name else name
  }

  /** True when translation is switched on and the translator returns a
      name for `name` instead of raising. */
  predicate Translates(translate: Option<string -> Option<string>>, name: string) {
    translate.Some? && translate.value(name).Some?
  }

  /** What `clean_and_translate_title` returns for a cleaned title and
      its brand split: the original title is the cleaned one and the brand
      is the split's. When a translation comes back, the product name is
      the translation and the final title is brand and translation, cut to
      100 characters. Otherwise the final title is the cleaned title and
      the product name is the untranslated name, cut to 100 characters. */
  predicate TitleOutcome(r: TitleInfo, split: BrandSplit, cleaned: string, translate: Option<string -> Option<string>>) {
    && r.originalTitle == cleaned
    && r.brand == split.brand
    && (Translates(translate, split.productName) ==>
          && r.productName == translate.value(split.productName).value
          && Ellipsized(r.finalTitle, WithBrand(r.brand, r.productName), MaxTitleLength))
    && (!Translates(translate, split.productName) ==>
          && r.finalTitle == cleaned
          && Ellipsized(r.productName, split.productName, MaxTitleLength))
  }

  /** The result once the title is cleaned and split. */
  function FinishTitle(split: BrandSplit, cleaned: string, translate: Option<string -> Option<string>>): (r: TitleInfo)
    ensures TitleOutcome(r, split, cleaned, translate)
  {
    if Translates(translate, split.productName) then
      var korean := translate.value(split.productName).value;
      TitleInfo(split.brand, korean, Ellipsize(WithBrand(split.brand, korean), MaxTitleLength), cleaned)
    else
      TitleInfo(split.brand, Ellipsize(split.productName, MaxTitleLength), cleaned, cleaned)
  }

  /** `clean_and_translate_title`. `translate` is `None` when translation
      is switched off or unavailable; the function it holds returns `None`
      where the translator raises. */
  function CleanAndTranslateTitle(title: string, translate: Option<string -> Option<string>>): (r: TitleInfo)
    ensures TitleOutcome(r, SplitBrand(CleanTitle(title)), CleanTitle(title), translate)
  {
    var cleaned := CleanTitle(title);
    FinishTitle(SplitBrand(cleaned), cleaned, translate)
  }
}
