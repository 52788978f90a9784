/** The settings checks and list edits of the integrated desktop tool: crawl
    and margin validation, the search-keyword list, the two-step workflow
    status, and the keywords that follow the category selection. The widget
    toolkit is left out; its dialogs and list selections become parameters. */
module Settings {
  import opened Wrappers
  import opened Text

  /** The numeric settings, as named in the error they cause. */
  datatype Setting = ProductsPerKeyword | CrawlDelay | MinRating | MinReviews | MarginRate

  /** Why a validation fails. `InvalidLiteral` is the error `int()` raises
      for text that is not an integer, passed on with its own message;
      `NotNumeric` is the tool's own "must be a number" message. */
  datatype SettingsError =
    | InvalidLiteral(setting: Setting, text: string)
    | NotNumeric(setting: Setting)
    | OutOfRange(setting: Setting)
    | NoKeywords

  /** Python's `int()` and `float()` on the text of an entry field; `None`
      is the `ValueError` they raise. */
  datatype Parsers = Parsers(toInt: string -> Option<int>, toFloat: string -> Option<real>)

  /** The text of the crawl settings' entry fields, and the keyword list. */
  datatype CrawlSettings = CrawlSettings(
    productsPerKeyword: string, crawlDelay: string, minRating: string, minReviews: string,
    keywords: seq<string>)

  /** The crawl settings' range checks are met. */
  predicate CrawlInRange(perKeyword: int, delay: int, rating: real, reviews: int, keywords: seq<string>) {
    && 1 <= perKeyword <= 50
    && delay >= 1
    && 0.0 <= rating <= 5.0
    && reviews >= 0
    && keywords != []
  }

  /** The range checks of `validate_crawling_settings`, in the source's
      order: the first one violated names the error. */
  function CheckCrawl(perKeyword: int, delay: int, rating: real, reviews: int, keywords: seq<string>): (r: Outcome<SettingsError>)
    ensures r.Pass? <==> CrawlInRange(perKeyword, delay, rating, reviews, keywords)
    ensures !(1 <= perKeyword <= 50) ==> r == Fail(OutOfRange(ProductsPerKeyword))
    ensures 1 <= perKeyword <= 50 && delay < 1 ==> r == Fail(OutOfRange(CrawlDelay))
    ensures 1 <= perKeyword <= 50 && delay >= 1 && !(0.0 <= rating <= 5.0) ==> r == Fail(OutOfRange(MinRating))
    ensures 1 <= perKeyword <= 50 && delay >= 1 && 0.0 <= rating <= 5.0 && reviews < 0 ==> r == Fail(OutOfRange(MinReviews))
    ensures 1 <= perKeyword <= 50 && delay >= 1 && 0.0 <= rating <= 5.0 && reviews >= 0 && keywords == [] ==> r == Fail(NoKeywords)
  {
    if perKeyword < 1 || perKeyword > 50 then Fail(OutOfRange(ProductsPerKeyword))
    else if delay < 1 then Fail(OutOfRange(CrawlDelay))
    else if !(0.0 <= rating <= 5.0) then Fail(OutOfRange(MinRating))
    else if reviews < 0 then Fail(OutOfRange(MinReviews))
    else if keywords == [] then Fail(NoKeywords)
    else Pass
  }

  /** The phrase the validation handlers look for in an error message. */
  const CouldNotConvert: string := "could not convert"

  /** What a validation handler makes of `int()` rejecting `text`. The
      message `int()` raises quotes the text, and only the text can hold
      the phrase, so the "must be a number" message replaces it exactly
      when the text contains "could not convert"; otherwise `int()`'s own
      error passes through. */
  function IntFailure(setting: Setting, text: string): (e: SettingsError)
    ensures e.NotNumeric? || e.InvalidLiteral?
    ensures e.setting == setting
    ensures e.NotNumeric? <==> Contains(text, CouldNotConvert)
    ensures e.InvalidLiteral? ==> e.text == text
  {
    if Contains(text, CouldNotConvert) then NotNumeric(setting) else InvalidLiteral(setting, text)
  }

  /** Every numeric field of the crawl settings parses. */
  predicate CrawlParses(s: CrawlSettings, p: Parsers) {
    && p.toInt(s.productsPerKeyword).Some?
    && p.toInt(s.crawlDelay).Some?
    && p.toFloat(s.minRating).Some?
    && p.toInt(s.minReviews).Some?
  }

  /** The crawl settings are accepted. */
  predicate CrawlValid(s: CrawlSettings, p: Parsers) {
    && CrawlParses(s, p)
    && CrawlInRange(p.toInt(s.productsPerKeyword).value, p.toInt(s.crawlDelay).value,
                    p.toFloat(s.minRating).value, p.toInt(s.minReviews).value, s.keywords)
  }

  /** `validate_crawling_settings` as written. The fields are parsed in
      order, then range-checked. Its handler swaps in the "must be a
      number" message only for an error whose text says "could not
      convert". That is always so for `float()`'s wording, but `int()`'s
      failure says "invalid literal for int()" and passes through unless
      the rejected text itself holds the phrase. */
  function ValidateCrawlingSettings(s: CrawlSettings, p: Parsers): (r: Outcome<SettingsError>)
    ensures r.Pass? <==> CrawlValid(s, p)
    ensures p.toInt(s.productsPerKeyword).None? ==> r == Fail(IntFailure(ProductsPerKeyword, s.productsPerKeyword))
    ensures p.toInt(s.productsPerKeyword).Some? && p.toInt(s.crawlDelay).None? ==>
      r == Fail(IntFailure(CrawlDelay, s.crawlDelay))
    ensures p.toInt(s.productsPerKeyword).Some? && p.toInt(s.crawlDelay).Some? && p.toFloat(s.minRating).None? ==>
      r == Fail(NotNumeric(MinRating))
    ensures p.toInt(s.productsPerKeyword).Some? && p.toInt(s.crawlDelay).Some? && p.toFloat(s.minRating).Some? &&
            p.toInt(s.minReviews).None? ==>
      r == Fail(IntFailure(MinReviews, s.minReviews))
    ensures CrawlParses(s, p) ==>
      r == CheckCrawl(p.toInt(s.productsPerKeyword).value, p.toInt(s.crawlDelay).value,
                      p.toFloat(s.minRating).value, p.toInt(s.minReviews).value, s.keywords)
    ensures r.Fail? && r.error.InvalidLiteral? ==>
      r.error.setting != MinRating && !Contains(r.error.text, CouldNotConvert)
  {
    match p.toInt(s.productsPerKeyword)
    case None => Fail(IntFailure(ProductsPerKeyword, s.productsPerKeyword))
    case Some(perKeyword) =>
      match p.toInt(s.crawlDelay)
      case None => Fail(IntFailure(CrawlDelay, s.crawlDelay))
      case Some(delay) =>
        match p.toFloat(s.minRating)
        case None => Fail(NotNumeric(MinRating))
        case Some(rating) =>
          match p.toInt(s.minReviews)
          case None => Fail(IntFailure(MinReviews, s.minReviews))
          case Some(reviews) => CheckCrawl(perKeyword, delay, rating, reviews, s.keywords)
  }

  /** The tool's own message for every field that is not a number, which
      is what the handler of `validate_crawling_settings` is for; the error
      names the first field, in parse order, that is not one. */
  function ValidateCrawlingSettingsIntended(s: CrawlSettings, p: Parsers): (r: Outcome<SettingsError>)
    ensures r.Pass? <==> CrawlValid(s, p)
    ensures r.Fail? ==> !r.error.InvalidLiteral?
    ensures !CrawlParses(s, p) ==> r.Fail? && r.error.NotNumeric?
    ensures p.toInt(s.productsPerKeyword).None? ==> r == Fail(NotNumeric(ProductsPerKeyword))
    ensures p.toInt(s.productsPerKeyword).Some? && p.toInt(s.crawlDelay).None? ==>
      r == Fail(NotNumeric(CrawlDelay))
    ensures p.toInt(s.productsPerKeyword).Some? && p.toInt(s.crawlDelay).Some? && p.toFloat(s.minRating).None? ==>
      r == Fail(NotNumeric(MinRating))
    ensures p.toInt(s.productsPerKeyword).Some? && p.toInt(s.crawlDelay).Some? && p.toFloat(s.minRating).Some? &&
            p.toInt(s.minReviews).None? ==>
      r == Fail(NotNumeric(MinReviews))
  {
    match ValidateCrawlingSettings(s, p)
    case Fail(InvalidLiteral(setting, _)) => Fail(NotNumeric(setting))
    case other => other
  }

  /** The two validations differ only in the wording for a field `int()`
      rejects: they agree whenever every field parses, and an unparsable
      first field gets `int()`'s own message as written. */
  lemma IntendedAgreesWhenParsed(s: CrawlSettings, p: Parsers)
    ensures CrawlParses(s, p) ==> ValidateCrawlingSettingsIntended(s, p) == ValidateCrawlingSettings(s, p)
    ensures p.toInt(s.productsPerKeyword).None? ==>
      && ValidateCrawlingSettings(s, p) == Fail(IntFailure(ProductsPerKeyword, s.productsPerKeyword))
      && ValidateCrawlingSettingsIntended(s, p) == Fail(NotNumeric(ProductsPerKeyword))
  {
  }

  /** The margin-rate bound shared by the validation and the
      conversion-only run. */
  predicate MarginInRange(margin: int) {
    10 <= margin <= 200
  }

  /** `validate_smartstore_settings` as written: the margin rate must be an
      integer from 10 to 200. As in the crawl check, `int()`'s own error
      passes through the handler, so its "must be a number" message is
      used only for text that itself contains "could not convert". */
  function ValidateSmartstoreSettings(marginText: string, p: Parsers): (r: Outcome<SettingsError>)
    ensures r.Pass? <==> p.toInt(marginText).Some? && MarginInRange(p.toInt(marginText).value)
    ensures p.toInt(marginText).None? && !Contains(marginText, CouldNotConvert) ==>
      r == Fail(InvalidLiteral(MarginRate, marginText))
    ensures p.toInt(marginText).None? && Contains(marginText, CouldNotConvert) ==>
      r == Fail(NotNumeric(MarginRate))
    ensures p.toInt(marginText).Some? && !MarginInRange(p.toInt(marginText).value) ==> r == Fail(OutOfRange(MarginRate))
    ensures r == Fail(NotNumeric(MarginRate)) ==> Contains(marginText, CouldNotConvert)
  {
    match p.toInt(marginText)
    case None => Fail(IntFailure(MarginRate, marginText))
    case Some(margin) => if margin < 10 || margin > 200 then Fail(OutOfRange(MarginRate)) else Pass
  }

  /** The "must be a number" message the handler of
      `validate_smartstore_settings` is written to give. */
  function ValidateSmartstoreSettingsIntended(marginText: string, p: Parsers): (r: Outcome<SettingsError>)
    ensures r.Pass? <==> p.toInt(marginText).Some? && MarginInRange(p.toInt(marginText).value)
    ensures p.toInt(marginText).None? ==> r == Fail(NotNumeric(MarginRate))
    ensures p.toInt(marginText).Some? ==> r == ValidateSmartstoreSettings(marginText, p)
  {
    match ValidateSmartstoreSettings(marginText, p)
    case Fail(InvalidLiteral(setting, _)) => Fail(NotNumeric(setting))
    case other => other
  }

  /** Parsers on which "abc" and "could not convert" are not numbers and
      every other text is 20, or 3.0 as a float. */
  function AbcParsers(): Parsers {
    Parsers(
      t => if t == "abc" || t == CouldNotConvert then None else Some(20),
      t => if t == "abc" || t == CouldNotConvert then None else Some(3.0))
  }

  /** Products per keyword "abc": the settings as written report `int()`'s
      own error, not the tool's message. */
  lemma NonNumericCountKeepsRawError()
    ensures var s := CrawlSettings("abc", "3", "3.0", "10", ["serum"]);
      && ValidateCrawlingSettings(s, AbcParsers()) == Fail(InvalidLiteral(ProductsPerKeyword, "abc"))
      && ValidateCrawlingSettingsIntended(s, AbcParsers()) == Fail(NotNumeric(ProductsPerKeyword))
  {
    ShortNotContains("abc", CouldNotConvert);
  }

  /** Margin rate "abc": the validation as written reports `int()`'s own
      error, not the margin's "must be a number" message. */
  lemma NonNumericMarginKeepsRawError()
    ensures ValidateSmartstoreSettings("abc", AbcParsers()) == Fail(InvalidLiteral(MarginRate, "abc"))
    ensures ValidateSmartstoreSettingsIntended("abc", AbcParsers()) == Fail(NotNumeric(MarginRate))
  {
    ShortNotContains("abc", CouldNotConvert);
  }

  /** The margin check of `start_conversion_only`, which shows any
      `ValueError` as it is: `int()`'s own error for text that is not an
      integer, whatever it says. */
  function ConversionMarginCheck(marginText: string, p: Parsers): (r: Outcome<SettingsError>)
    ensures r.Pass? <==> p.toInt(marginText).Some? && MarginInRange(p.toInt(marginText).value)
    ensures p.toInt(marginText).None? ==> r == Fail(InvalidLiteral(MarginRate, marginText))
    ensures p.toInt(marginText).Some? && !MarginInRange(p.toInt(marginText).value) ==> r == Fail(OutOfRange(MarginRate))
  {
    match p.toInt(marginText)
    case None => Fail(InvalidLiteral(MarginRate, marginText))
    case Some(margin) => if margin < 10 || margin > 200 then Fail(OutOfRange(MarginRate)) else Pass
  }

  /** A conversion-only run is allowed for exactly the margins the
      validation accepts, and refused with the same error unless the
      rejected text contains "could not convert". */
  lemma ConversionCheckMatchesValidation(marginText: string, p: Parsers)
    ensures ConversionMarginCheck(marginText, p).Pass? <==> ValidateSmartstoreSettings(marginText, p).Pass?
    ensures !Contains(marginText, CouldNotConvert) ==>
      ConversionMarginCheck(marginText, p) == ValidateSmartstoreSettings(marginText, p)
  {
  }

  /** Margin text "could not convert": the validation gives the margin's
      "must be a number" message while the conversion-only run shows
      `int()`'s own error. */
  lemma ConvertPhraseSplitsChecks()
    ensures ValidateSmartstoreSettings(CouldNotConvert, AbcParsers()) == Fail(NotNumeric(MarginRate))
    ensures ConversionMarginCheck(CouldNotConvert, AbcParsers()) == Fail(InvalidLiteral(MarginRate, CouldNotConvert))
  {
    assert Contains(CouldNotConvert, CouldNotConvert);
  }

  /** `add_keyword`: the dialog's answer (`None` when cancelled) is
      stripped and appended when something is left. */
  function AddKeyword(keywords: seq<string>, answer: Option<string>): (r: seq<string>)
    ensures answer.Some? && Strip(answer.value) != [] ==> r == keywords + [Strip(answer.value)]
    ensures answer.None? || Strip(answer.value) == [] ==> r == keywords
    ensures |r| == |keywords| || |r| == |keywords| + 1
    ensures |r| == |keywords| + 1 ==> Trimmed(r[|keywords|]) && r[|keywords|] != []
  {
    if answer.Some? && Strip(answer.value) != [] then keywords + [Strip(answer.value)] else keywords
  }

  /** `remove_keyword`: the first selected row is removed from the keyword
      list when it is an index of it; with no selection, or a row past the
      end, nothing changes. */
  function RemoveKeyword(keywords: seq<string>, selection: seq<nat>): (r: seq<string>)
    ensures selection == [] || selection[0] >= |keywords| ==> r == keywords
    ensures selection != [] && selection[0] < |keywords| ==>
      var i := selection[0];
      && |r| == |keywords| - 1
      && (forall j :: 0 <= j < i ==> r[j] == keywords[j])
      && (forall j :: i <= j < |r| ==> r[j] == keywords[j + 1])
      && multiset(r) + multiset{keywords[i]} == multiset(keywords)
  {
    if selection != [] && selection[0] < |keywords| then
      var i := selection[0];
      assert keywords == keywords[..i] + [keywords[i]] + keywords[i + 1..];
      keywords[..i] + keywords[i + 1..]
    else keywords
  }

  /** Why an edit fails: the selected row is not an index of the keyword
      list, and the assignment raises `IndexError`. */
  datatype EditError = IndexOutOfRange(index: nat)

  /** `edit_keyword`: with a row selected and a non-blank answer, that row
      of the keyword list becomes the stripped answer. The source has no
      bounds check, so a row past the end of the list raises. */
  function EditKeyword(keywords: seq<string>, selection: seq<nat>, answer: Option<string>): (r: Result<seq<string>, EditError>)
    ensures r.Failure? <==> selection != [] && answer.Some? && Strip(answer.value) != [] && selection[0] >= |keywords|
    ensures r.Failure? ==> r.error == IndexOutOfRange(selection[0])
    ensures selection == [] || answer.None? || Strip(answer.value) == [] ==> r == Success(keywords)
    ensures r.Success? ==> |r.value| == |keywords|
    ensures r.Success? ==> forall j :: 0 <= j < |keywords| && (selection == [] || j != selection[0]) ==> r.value[j] == keywords[j]
    ensures r.Success? && selection != [] && answer.Some? && Strip(answer.value) != [] ==>
      r.value[selection[0]] == Strip(answer.value)
  {
    if selection == [] || answer.None? || Strip(answer.value) == [] then Success(keywords)
    else if selection[0] >= |keywords| then Failure(IndexOutOfRange(selection[0]))
    else Success(keywords[selection[0] := Strip(answer.value)])
  }

  /** Adding a keyword and then removing the row it landed in gives back
      the original list. */
  lemma AddThenRemove(keywords: seq<string>, answer: string)
    requires Strip(answer) != []
    ensures RemoveKeyword(AddKeyword(keywords, Some(answer)), [|keywords|]) == keywords
  {
    var added := AddKeyword(keywords, Some(answer));
    assert added[..|keywords|] == keywords;
  }

  /** The status of the two workflow steps. A status is any text; the four
      the tool uses have an icon. */
  datatype WorkflowStatus = WorkflowStatus(crawling: string, conversion: string)

  /** The statuses the icon table knows. */
  const Statuses: set<string> := {"pending", "running", "completed", "failed"}

  const InitialStatus: WorkflowStatus := WorkflowStatus("pending", "pending")

  /** Both steps hold a status the icon table knows. */
  predicate KnownStatuses(w: WorkflowStatus) {
    w.crawling in Statuses && w.conversion in Statuses
  }

  /** The icon for a status; the source looks it up only inside a deferred
      callback, so an unknown status still gets stored. */
  function Icon(status: string): (r: Option<string>)
    ensures r.Some? <==> status in Statuses
  {
    if status == "pending" then Some("⏳")
    else if status == "running" then Some("🔄")
    else if status == "completed" then Some("✅")
    else if status == "failed" then Some("❌")
    else None
  }

  /** `update_workflow_step`: step 1 is the crawl, step 2 the conversion;
      any other step number changes nothing. */
  function UpdateWorkflowStep(w: WorkflowStatus, step: int, status: string): (r: WorkflowStatus)
    ensures step == 1 ==> r.crawling == status && r.conversion == w.conversion
    ensures step == 2 ==> r.conversion == status && r.crawling == w.crawling
    ensures step != 1 && step != 2 ==> r == w
  {
    if step == 1 then w.(crawling := status)
    else if step == 2 then w.(conversion := status)
    else w
  }

  /** Known statuses stay known under updates with known statuses. */
  lemma UpdateKeepsKnown(w: WorkflowStatus, step: int, status: string)
    requires KnownStatuses(w) && Icon(status).Some?
    ensures KnownStatuses(UpdateWorkflowStep(w, step, status))
  {
  }

  /** Both steps start pending, a status the icon table knows. */
  lemma InitialStatusKnown()
    ensures KnownStatuses(InitialStatus)
  {
  }

  /** Setting a step twice keeps only the second status. */
  lemma UpdateLastWins(w: WorkflowStatus, step: int, first: string, second: string)
    ensures UpdateWorkflowStep(UpdateWorkflowStep(w, step, first), step, second) == UpdateWorkflowStep(w, step, second)
  {
  }

  /** The ids of the checked categories, in the order of the checkboxes. */
  function Checked(boxes: seq<(string, bool)>): (r: seq<string>)
    ensures |r| <= |boxes|
    ensures forall k :: 0 <= k < |r| ==> exists j :: 0 <= j < |boxes| && boxes[j] == (r[k], true)
    ensures forall j :: 0 <= j < |boxes| && boxes[j].1 ==> boxes[j].0 in r
    ensures r == [] <==> forall j :: 0 <= j < |boxes| ==> !boxes[j].1
  {
    if boxes == [] then []
    else
      var rest := Checked(boxes[1..]);
      assert forall j :: 1 <= j < |boxes| ==> boxes[j] == boxes[1..][j - 1];
      if boxes[0].1 then [boxes[0].0] + rest else rest
  }

  /** The checked ids of two runs of checkboxes are those of the first
      followed by those of the second: the selection keeps checkbox order. */
  lemma {:induction false} CheckedAppend(a: seq<(string, bool)>, b: seq<(string, bool)>)
    ensures Checked(a + b) == Checked(a) + Checked(b)
    decreases |a|
  {
    if a == [] {
      assert a + b == b;
    } else {
      assert (a + b)[0] == a[0];
      assert (a + b)[1..] == a[1..] + b;
      CheckedAppend(a[1..], b);
    }
  }

  /** One checkbox contributes its id exactly when it is checked. */
  lemma CheckedOne(box: (string, bool))
    ensures Checked([box]) == if box.1 then [box.0] else []
  {
    assert [box][1..] == [];
  }

  /** `on_category_selection_changed`: the selection is the checked
      categories, and the keyword list is the category manager's keyword
      mix for them, or empty when nothing is checked. */
  function OnCategorySelectionChanged(boxes: seq<(string, bool)>, mix: seq<string> -> seq<string>): (r: (seq<string>, seq<string>))
    ensures r.0 == Checked(boxes)
    ensures (forall j :: 0 <= j < |boxes| ==> !boxes[j].1) ==> r.0 == [] && r.1 == []
    ensures (exists j :: 0 <= j < |boxes| && boxes[j].1) ==> r.1 == mix(r.0)
  {
    var selected := Checked(boxes);
    (selected, if selected != [] then mix(selected) else [])
  }

  /** Deselecting every category empties the keyword list, whatever the
      keyword mix would give. */
  lemma DeselectAllEmptiesKeywords(ids: seq<string>, mix: seq<string> -> seq<string>)
    ensures OnCategorySelectionChanged(seq(|ids|, j requires 0 <= j < |ids| => (ids[j], false)), mix).1 == []
  {
  }
}
