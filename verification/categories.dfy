/** The category classifier of the Smartstore uploader: a product title and
    an optional category hint become a Naver category code, by a fixed
    priority of keyword rules. */
module Categories {
  import opened Wrappers
  import opened Text

  /** A first-tier rule: any of `words` occurring in the lower-cased title
      selects `code`. */
  datatype TitleRule = TitleRule(words: seq<string>, code: string)

  /** The first tier, tried in this order on the title alone. */
  const TitleRules: seq<TitleRule> := [
    TitleRule(["serum", "세럼", "essence", "에센스"], "50000169"),
    TitleRule(["cream", "크림", "moisturizer", "모이스처"], "50000167"),
    TitleRule(["retinol", "레티놀"], "50000167"),
    TitleRule(["hyaluronic", "히알루론산"], "50000169"),
    TitleRule(["vitamin c", "비타민c", "vitamin-c"], "50000169")
  ]

  /** The second tier: the uploader's keyword table in insertion order; a
      keyword occurring in the title or in the hint selects its code. */
  const CategoryCodes: seq<(string, string)> := [
    ("serum", "50000169"),
    ("cream", "50000167"),
    ("skincare", "50000166"),
    ("beauty", "50000166"),
    ("cosmetics", "50000166"),
    ("hyaluronic", "50000169"),
    ("retinol", "50000167"),
    ("vitamin_c", "50000169"),
    ("protein", "50006674"),
    ("vitamin", "50006674"),
    ("supplement", "50006674"),
    ("baby", "50002436"),
    ("pet", "50002439"),
    ("home", "50000131"),
    ("kitchen", "50000156"),
    ("tech", "50000128"),
    ("fashion", "50000001"),
    ("office", "50000145")
  ]

  /** The code used when no rule and no keyword matches. */
  const DefaultCode: string := "50000169"

  /** Every code the classifier can return. */
  const KnownCodes: set<string> := {
    "50000169", "50000167", "50000166", "50006674", "50002436",
    "50002439", "50000131", "50000156", "50000128", "50000001", "50000145"
  }

  /** Rule `i` of `rules` fires on the lower-cased title `t`. */
  predicate TitleHit(rules: seq<TitleRule>, t: string, i: nat)
    requires i < |rules|
  {
    exists w :: w in rules[i].words && Contains(t, w)
  }

  /** Keyword `j` of `table` occurs in the title `t` or the hint `h`. */
  predicate KeywordHit(table: seq<(string, string)>, t: string, h: string, j: nat)
    requires j < |table|
  {
    Contains(t, table[j].0) || Contains(h, table[j].0)
  }

  /** No rule of `rules` at or after `from` fires. */
  predicate NoTitleHitFrom(rules: seq<TitleRule>, t: string, from: nat) {
    forall i: nat :: from <= i < |rules| ==> !TitleHit(rules, t, i)
  }

  /** No keyword of `table` at or after `from` occurs. */
  predicate NoKeywordHitFrom(table: seq<(string, string)>, t: string, h: string, from: nat) {
    forall j: nat :: from <= j < |table| ==> !KeywordHit(table, t, h, j)
  }

  /** Rule `i` is the first of `rules` to fire on `t`. */
  predicate IsFirstTitleHit(rules: seq<TitleRule>, t: string, i: nat) {
    i < |rules| && TitleHit(rules, t, i) && forall k: nat :: k < i ==> !TitleHit(rules, t, k)
  }

  /** Keyword `j` is the first of `table` to occur in `t` or `h`. */
  predicate IsFirstKeywordHit(table: seq<(string, string)>, t: string, h: string, j: nat) {
    j < |table| && KeywordHit(table, t, h, j) && forall k: nat :: k < j ==> !KeywordHit(table, t, h, k)
  }

  /** The index of the first firing rule at or after `from`, if any. */
  function FirstTitleHit(rules: seq<TitleRule>, t: string, from: nat): (r: Option<nat>)
    requires from <= |rules|
    ensures r.None? <==> NoTitleHitFrom(rules, t, from)
    ensures r.Some? ==> from <= r.value < |rules| && TitleHit(rules, t, r.value)
    ensures r.Some? ==> forall i: nat :: from <= i < r.value ==> !TitleHit(rules, t, i)
    decreases |rules| - from
  {
    if from == |rules| then None
    else if TitleHit(rules, t, from) then Some(from)
    else FirstTitleHit(rules, t, from + 1)
  }

  /** The index of the first occurring keyword at or after `from`, if any. */
  function FirstKeywordHit(table: seq<(string, string)>, t: string, h: string, from: nat): (r: Option<nat>)
    requires from <= |table|
    ensures r.None? <==> NoKeywordHitFrom(table, t, h, from)
    ensures r.Some? ==> from <= r.value < |table| && KeywordHit(table, t, h, r.value)
    ensures r.Some? ==> forall j: nat :: from <= j < r.value ==> !KeywordHit(table, t, h, j)
    decreases |table| - from
  {
    if from == |table| then None
    else if KeywordHit(table, t, h, from) then Some(from)
    else FirstKeywordHit(table, t, h, from + 1)
  }

  /** The first-tier code of the first firing rule, if any. */
  function TitleTier(rules: seq<TitleRule>, t: string): (r: Option<string>)
    ensures r.None? <==> NoTitleHitFrom(rules, t, 0)
    ensures forall i: nat :: IsFirstTitleHit(rules, t, i) ==> r == Some(rules[i].code)
    ensures r.Some? ==> exists i: nat :: i < |rules| && r.value == rules[i].code
  {
    match FirstTitleHit(rules, t, 0)
    case Some(i) => Some(rules[i].code)
    case None => None
  }

  /** The second-tier code of the first occurring keyword, or `default`. */
  function KeywordTier(table: seq<(string, string)>, t: string, h: string, default: string): (r: string)
    ensures forall j: nat :: IsFirstKeywordHit(table, t, h, j) ==> r == table[j].1
    ensures NoKeywordHitFrom(table, t, h, 0) ==> r == default
    ensures r == default || exists j: nat :: j < |table| && r == table[j].1
  {
    match FirstKeywordHit(table, t, h, 0)
    case Some(j) => table[j].1
    case None => default
  }

  /** Every code named by the two tiers, and the default, is a known code. */
  lemma RuleCodesKnown()
    ensures forall i :: 0 <= i < |TitleRules| ==> TitleRules[i].code in KnownCodes
    ensures forall j :: 0 <= j < |CategoryCodes| ==> CategoryCodes[j].1 in KnownCodes
    ensures DefaultCode in KnownCodes
  {
  }

  /** `get_category_code`: the first-tier rules on the lower-cased title
      win in order; failing those, the first keyword of the table found in
      the lower-cased title or hint; failing that, the default code. An
      absent title or hint is the empty string. */
  function GetCategoryCode(title: string, hint: string): (r: string)
    ensures r in KnownCodes
    ensures var t, h := ToLower(title), ToLower(hint);
      && (forall i: nat :: IsFirstTitleHit(TitleRules, t, i) ==> r == TitleRules[i].code)
      && (NoTitleHitFrom(TitleRules, t, 0) ==>
            forall j: nat :: IsFirstKeywordHit(CategoryCodes, t, h, j) ==> r == CategoryCodes[j].1)
      && (NoTitleHitFrom(TitleRules, t, 0) && NoKeywordHitFrom(CategoryCodes, t, h, 0) ==> r == DefaultCode)
  {
    var t, h := ToLower(title), ToLower(hint);
    RuleCodesKnown();
    match TitleTier(TitleRules, t)
    case Some(code) => code
    case None => KeywordTier(CategoryCodes, t, h, DefaultCode)
  }

  /** A title naming a serum is always filed under essences and serums,
      whatever the hint says. */
  lemma SerumTitleIsSerum(title: string, hint: string)
    requires Contains(ToLower(title), "serum")
    ensures GetCategoryCode(title, hint) == "50000169"
  {
    assert TitleHit(TitleRules, ToLower(title), 0) by {
      assert "serum" in TitleRules[0].words;
    }
  }

  /** The hint is consulted only when no first-tier rule fires on the
      title. */
  lemma HintIgnoredOnTitleHit(title: string, hint1: string, hint2: string)
    requires !NoTitleHitFrom(TitleRules, ToLower(title), 0)
    ensures GetCategoryCode(title, hint1) == GetCategoryCode(title, hint2)
  {
    var t := ToLower(title);
    var f := FirstTitleHit(TitleRules, t, 0);
    assert f.Some?;
    assert GetCategoryCode(title, hint1) == TitleRules[f.value].code;
  }
}
