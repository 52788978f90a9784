/** Turning crawled Amazon product records into Smartstore listing rows:
    `convert_to_smartstore_upload_format` of the uploader. */
module Assembly {
  import opened Wrappers
  import opened Text
  import opened Sanitizer
  import opened Pricing
  import opened Titles
  import opened Categories
  import opened Records

  /** The translator's three entry points; each returns `None` where the
      translator raises. */
  datatype Translator = Translator(
    title: string -> Option<string>,
    description: Value -> Option<string>,
    features: seq<string> -> Option<seq<string>>)

  /** What the conversion depends on besides the records: the translator
      (`None` when translation is off or no translator is loaded), Python
      `float` on text (`None` where it raises), and the current time as
      ISO text. */
  datatype Env = Env(translator: Option<Translator>, parseFloat: string -> Option<real>, now: string)

  /** Why a record is skipped. */
  datatype Skip = NotARecord | MissingRequiredField(fields: seq<string>) | TransformError

  /** The reference columns that follow the upload columns in the frame. */
  datatype Reference = Reference(
    description: string, rating: Value, reviewCount: Value, usdPrice: Value,
    originalTitle: string, imageUrl: Value, rawBrand: string, crawledAt: Value)

  /** The computed cells of one product row; every other upload cell is a
      constant (see the Export module). */
  datatype Listing = Listing(
    sellerCode: string, categoryCode: string, title: string, price: int,
    leafCategory: string, description: string, brand: string, manufacturer: string,
    noticeModelName: string, sizeModelName: string, reference: Reference)

  const RequiredFields: seq<string> := ["title", "price_usd"]
  const DefaultManufacturer: string := "해외제조사"
  const MaxDescriptionLength: nat := 32700
  const MinDescriptionLength: nat := 50

  /** The categories with a detailed leaf mapping; any other code falls
      back to the essence/serum leaf. */
  const LeafCategories: set<string> := {"50000169", "50000167", "50006674"}

  /** The leaf category of a code without a detailed mapping. */
  const DefaultLeafCategory: string := "50000169"

  /** Python `f"AMZ_{i:04d}"`. */
  function SellerCode(i: nat): string {
    "AMZ_" + ZeroPad(i, 4)
  }

  /** Reads a seller code back to the record position it was made from. */
  function ParseSellerCode(code: string): (r: Option<nat>)
    ensures r.Some? ==> |code| > 4 && code[..4] == "AMZ_"
  {
    if |code| >= 4 && code[..4] == "AMZ_" then ParseNat(code[4..]) else None
  }

  /** Seller codes are read back to the position they encode, so two
      different positions never share a code. */
  lemma SellerCodeRoundTrip(i: nat)
    ensures ParseSellerCode(SellerCode(i)) == Some(i)
  {
    var code := SellerCode(i);
    assert code[..4] == "AMZ_";
    assert code[4..] == ZeroPad(i, 4);
    ValueOfZeroPad(i, 4);
  }

  /** Python `str(v).replace('$', '').replace(',', '')` followed by `float`,
      for the shapes a price takes. `str` of a list or of `None` never
      parses as a number. */
  function UsdOf(v: Value, parseFloat: string -> Option<real>): Option<real> {
    match v
    case Str(s) => parseFloat(Delete(Delete(s, '$'), ','))
    case Int(n) => Some(n as real)
    case Num(x) => Some(x)
    case List(_) => None
    case Null => None
  }

  /** `s.replace(c, '')` for one character. */
  function Delete(s: string, c: char): (r: string)
    ensures |r| <= |s|
    ensures c !in r
    ensures forall i :: 0 <= i < |s| && s[i] != c ==> s[i] in r
    decreases |s|
  {
    if s == [] then []
    else
      var rest := Delete(s[1..], c);
      assert forall i :: 1 <= i < |s| ==> s[i] == s[1..][i - 1];
      (if s[0] == c then [] else [s[0]]) + rest
  }

  /** The three boilerplate descriptions. */
  datatype Blurb = SerumBlurb | CreamBlurb | GenericBlurb

  /** Which boilerplate a product name calls for. */
  function BlurbFor(name: string): Blurb {
    if Contains(ToLower(name), "serum") || Contains(name, "세럼") then SerumBlurb
    else if Contains(ToLower(name), "cream") || Contains(name, "크림") then CreamBlurb
    else GenericBlurb
  }

  /** The text the boilerplate puts after the product name. The line
      breaks are the two characters backslash and `n`, as the source's
      doubled backslashes write them. */
  function BlurbText(kind: Blurb): string {
    match kind
    case SerumBlurb => "\\n\\n* 프리미엄 스킨케어 세럼\\n* 피부에 깊은 영양과 수분 공급\\n* 건강하고 윤기있는 피부로 가꾸어 드립니다\\n\\n* 안전한 해외직구 상품\\n* 빠른 배송 서비스 제공"
    case CreamBlurb => "\\n\\n* 프리미엄 스킨케어 크림\\n* 피부에 깊은 보습과 영양 공급\\n* 부드럽고 촉촉한 피부로 가꾸어 드립니다\\n\\n* 안전한 해외직구 상품\\n* 빠른 배송 서비스 제공"
    case GenericBlurb => "\\n\\n* 프리미엄 뷰티 제품\\n* 피부 건강을 위한 전문 케어\\n* 아름답고 건강한 피부로 가꾸어 드립니다\\n\\n* 안전한 해외직구 상품\\n* 빠른 배송 서비스 제공"
  }

  /** The boilerplate description for `name`: it opens with the name. */
  function Boilerplate(name: string, kind: Blurb): (r: string)
    ensures |r| >= |name| && r[..|name|] == name
  {
    var b := BlurbText(kind);
    assert (name + b)[..|name|] == name;
    name + b
  }

  /** Python `sep.join(parts)`. */
  function JoinWith(parts: seq<string>, sep: string): string {
    if |parts| == 0 then []
    else if |parts| == 1 then parts[0]
    else parts[0] + sep + JoinWith(parts[1..], sep)
  }

  /** The description source: `description` when truthy, else `features`. */
  function DescriptionSource(fields: map<string, Value>): Value {
    var d := Get(fields, "description", Str(""));
    if Truthy(d) then d else Get(fields, "features", Str(""))
  }

  /** The translated description before the length checks; `None` where
      the translator raises. A list goes through the features translator,
      three items at most, joined by " / ". */
  function TranslateDescription(source: Value, t: Translator): Option<string> {
    if !Truthy(source) then Some("")
    else match source
      case List(items) =>
        (match t.features(items[..if |items| < 3 then |items| else 3])
         case Some(parts) => Some(JoinWith(parts, " / "))
         case None => None)
      case _ => t.description(source)
  }

  /** The description before sanitising. Without a translator it is empty.
      A translation whose stripped length is under 50 characters is
      replaced by the boilerplate the product name calls for, and the
      result is cut to 32700 characters. A translator failure gives the
      generic boilerplate, uncut. */
  function RawDescription(finalTitle: string, source: Value, translator: Option<Translator>): (r: string)
    ensures translator.None? ==> r == ""
    ensures translator.Some? && TranslateDescription(source, translator.value).None? ==>
      r == Boilerplate(finalTitle, GenericBlurb)
    ensures translator.Some? && TranslateDescription(source, translator.value).Some? ==>
      var d := TranslateDescription(source, translator.value).value;
      && |r| <= MaxDescriptionLength
      && (|Strip(d)| >= MinDescriptionLength ==> Ellipsized(r, d, MaxDescriptionLength))
      && (|Strip(d)| < MinDescriptionLength ==>
            Ellipsized(r, Boilerplate(finalTitle, BlurbFor(finalTitle)), MaxDescriptionLength))
  {
    match translator
    case None => ""
    case Some(t) =>
      match TranslateDescription(source, t)
      case None => Boilerplate(finalTitle, GenericBlurb)
      case Some(d) =>
        var full := if d == "" || |Strip(d)| < MinDescriptionLength then Boilerplate(finalTitle, BlurbFor(finalTitle)) else d;
        Ellipsize(full, MaxDescriptionLength)
  }

  /** The checks a record must pass to become a row, in the source's
      order: a dictionary, both required fields truthy, a string title
      (cleaning anything else raises), and a category hint that is a
      string or falsy (`.lower()` on anything else raises). */
  predicate Accepted(item: RawItem) {
    && item.Record?
    && Truthy(Get(item.fields, "title", Str("")))
    && Truthy(Get(item.fields, "price_usd", Str("")))
    && Get(item.fields, "title", Str("")).Str?
    && (Truthy(Get(item.fields, "category", Str(""))) ==> Get(item.fields, "category", Str("")).Str?)
  }

  /** The required fields a record lacks or holds a falsy value for, in
      order. */
  function MissingFields(fields: map<string, Value>): (r: seq<string>)
    ensures forall f :: f in r <==> f in RequiredFields && !Truthy(Get(fields, f, Str("")))
  {
    var t := if Truthy(Get(fields, "title", Str(""))) then [] else ["title"];
    t + if Truthy(Get(fields, "price_usd", Str(""))) then [] else ["price_usd"]
  }

  /** The category hint as the classifier receives it. */
  function Hint(fields: map<string, Value>): string {
    var c := Get(fields, "category", Str(""));
    if Truthy(c) && c.Str? then c.s else ""
  }

  /** The title text of a record; a title that is not text reads as
      empty (such records are skipped before their title is used). */
  function TitleText(fields: map<string, Value>): string {
    var t := Get(fields, "title", Str(""));
    if t.Str? then t.s else ""
  }

  /** The title translator of the environment, when there is one. */
  function TitleTranslator(env: Env): Option<string -> Option<string>> {
    if env.translator.Some? then Some(env.translator.value.title) else None
  }

  /** What the cells of `l` are for the record `fields` at position `i`:
      the seller code `AMZ_` and the zero-padded position, the won price of
      its dollar price, the sanitised final title and brand of its title,
      the category the final title and hint select, and its sanitised
      description; then the cells derived from those: the leaf category
      of the category, the brand or the overseas-maker default as
      manufacturer, the notice model name `title[:30]_code`, the size
      model name `MODEL` and the zero-padded position, and the reference
      copy of the description, cleaned title and raw brand. */
  predicate RowMeans(l: Listing, fields: map<string, Value>, i: nat, env: Env) {
    && Get(fields, "title", Str("")).Str?
    && var info := CleanAndTranslateTitle(TitleText(fields), TitleTranslator(env));
    && l.sellerCode == SellerCode(i)
    && l.price == KoreanPrice(UsdOf(Get(fields, "price_usd", Int(0)), env.parseFloat))
    && l.title == CleanTextForExcel(info.finalTitle)
    && l.brand == CleanTextForExcel(info.brand)
    && l.categoryCode == GetCategoryCode(info.finalTitle, Hint(fields))
    && l.description == Description(info.finalTitle, fields, env.translator)
    && l.leafCategory == (if l.categoryCode in LeafCategories then l.categoryCode else DefaultLeafCategory)
    && l.manufacturer == (if l.brand != "" then l.brand else DefaultManufacturer)
    && l.noticeModelName == Take(l.title, 30) + "_" + l.sellerCode
    && l.sizeModelName == "MODEL" + ZeroPad(i, 4)
    && l.reference.description == l.description
    && l.reference.originalTitle == info.originalTitle
    && l.reference.rawBrand == info.brand
  }

  /** The shape follows from what the cells are. */
  lemma MeansShape(l: Listing, fields: map<string, Value>, i: nat, env: Env)
    requires RowMeans(l, fields, i, env)
    ensures RowShape(l, i, env)
  {
    var info := CleanAndTranslateTitle(TitleText(fields), TitleTranslator(env));
    CodesShape(l, i, info.finalTitle, Hint(fields));
    TextsShape(l, info, fields, env);
    NamesShape(l);
  }

  /** The codes of a row: a seller code that reads back to its position,
      a known category, and a leaf category that is the category itself
      when it has a detailed mapping. */
  predicate RowCodes(l: Listing, i: nat) {
    && ParseSellerCode(l.sellerCode) == Some(i)
    && l.categoryCode in KnownCodes
    && l.leafCategory in LeafCategories
    && (l.categoryCode in LeafCategories ==> l.leafCategory == l.categoryCode)
  }

  lemma CodesShape(l: Listing, i: nat, title: string, hint: string)
    requires l.sellerCode == SellerCode(i)
    requires l.categoryCode == GetCategoryCode(title, hint)
    requires l.leafCategory == (if l.categoryCode in LeafCategories then l.categoryCode else DefaultLeafCategory)
    ensures RowCodes(l, i)
  {
    SellerCodeRoundTrip(i);
  }

  /** The texts of a row: sanitised title, brand and description, no
      description without a translator, and the reference copy of the
      description. */
  predicate RowTexts(l: Listing, env: Env) {
    && IsClean(l.title) && IsClean(l.brand) && IsClean(l.description)
    && (env.translator.None? ==> l.description == "")
    && l.reference.description == l.description
  }

  lemma TextsShape(l: Listing, info: TitleInfo, fields: map<string, Value>, env: Env)
    requires l.title == CleanTextForExcel(info.finalTitle)
    requires l.brand == CleanTextForExcel(info.brand)
    requires l.description == Description(info.finalTitle, fields, env.translator)
    requires l.reference.description == l.description
    ensures RowTexts(l, env)
  {
  }

  /** The names of a row: a non-empty manufacturer that is the brand when
      there is one, and the notice model name `title[:30]_code`. */
  predicate RowNames(l: Listing) {
    && l.manufacturer != ""
    && (l.brand != "" ==> l.manufacturer == l.brand)
    && l.noticeModelName == Take(l.title, 30) + "_" + l.sellerCode
  }

  lemma NamesShape(l: Listing)
    requires l.manufacturer == (if l.brand != "" then l.brand else DefaultManufacturer)
    requires l.noticeModelName == Take(l.title, 30) + "_" + l.sellerCode
    ensures RowNames(l)
  {
  }

  /** The shape every row has: its codes, its texts and its names. */
  predicate RowShape(l: Listing, i: nat, env: Env) {
    RowCodes(l, i) && RowTexts(l, env) && RowNames(l)
  }

  /** One record at 1-based position `i` becomes a listing or a reason to
      skip it. */
  function AssembleItem(item: RawItem, i: nat, env: Env): (r: Result<Listing, Skip>)
    ensures r.Success? <==> Accepted(item)
    ensures item.NotARecord? ==> r == Failure(Skip.NotARecord)
    ensures item.Record? && MissingFields(item.fields) != [] ==>
      r == Failure(MissingRequiredField(MissingFields(item.fields)))
    ensures r.Success? ==> item.Record? && RowMeans(r.value, item.fields, i, env)
    ensures r.Success? ==> RowShape(r.value, i, env)
  {
    match item
    case NotARecord => Failure(Skip.NotARecord)
    case Record(fields) =>
      var missing := MissingFields(fields);
      if missing != [] then Failure(MissingRequiredField(missing))
      else if !Get(fields, "title", Str("")).Str? then Failure(TransformError)
      else if Truthy(Get(fields, "category", Str(""))) && !Get(fields, "category", Str("")).Str? then Failure(TransformError)
      else
        var l := Build(fields, i, env);
        MeansShape(l, fields, i, env);
        Success(l)
  }

  /** The sanitised description of a record. */
  function Description(finalTitle: string, fields: map<string, Value>, translator: Option<Translator>): (d: string)
    ensures IsClean(d)
    ensures translator.None? ==> d == ""
  {
    CleanTextForExcel(RawDescription(finalTitle, DescriptionSource(fields), translator))
  }

  /** The row of an accepted record. */
  function Build(fields: map<string, Value>, i: nat, env: Env): (l: Listing)
    requires Get(fields, "title", Str("")).Str?
    ensures RowMeans(l, fields, i, env)
  {
    var info := CleanAndTranslateTitle(TitleText(fields), TitleTranslator(env));
    var code := GetCategoryCode(info.finalTitle, Hint(fields));
    var title := CleanTextForExcel(info.finalTitle);
    var brand := CleanTextForExcel(info.brand);
    var description := Description(info.finalTitle, fields, env.translator);
    var seller := SellerCode(i);
    Listing(
      seller, code, title,
      KoreanPrice(UsdOf(Get(fields, "price_usd", Int(0)), env.parseFloat)),
      if code in LeafCategories then code else DefaultLeafCategory,
      description, brand,
      if brand != "" then brand else DefaultManufacturer,
      Take(title, 30) + "_" + seller,
      "MODEL" + ZeroPad(i, 4),
      Reference(
        description,
        Get(fields, "rating", Int(0)),
        Get(fields, "review_count", Int(0)),
        Get(fields, "price_usd", Int(0)),
        info.originalTitle,
        Get(fields, "image_url", Str("")),
        info.brand,
        Get(fields, "crawl_timestamp", Str(env.now))))
  }

  /** The position a row's seller code encodes. */
  function Position(l: Listing): nat {
    ParseSellerCode(l.sellerCode).GetOr(0)
  }

  /** The converted rows and, for each skipped record, its 1-based
      position and the reason; generic in the row type. */
  datatype Gathered<T> = Gathered(rows: seq<T>, skipped: seq<(nat, Skip)>)

  /** Row positions strictly increase along `rows`. */
  predicate Ascending<T>(rows: seq<T>, pos: T -> nat) {
    forall k, m :: 0 <= k < m < |rows| ==> pos(rows[k]) < pos(rows[m])
  }

  /** Each row is the successful result at the position it carries. */
  predicate RowsFrom<T(==)>(rows: seq<T>, results: seq<Result<T, Skip>>, first: nat, pos: T -> nat) {
    forall k :: 0 <= k < |rows| ==>
      first <= pos(rows[k]) < first + |results| && results[pos(rows[k]) - first] == Success(rows[k])
  }

  /** Each skip is the failed result at the position it records. */
  predicate SkipsFrom<T(==)>(skipped: seq<(nat, Skip)>, results: seq<Result<T, Skip>>, first: nat) {
    forall k :: 0 <= k < |skipped| ==>
      first <= skipped[k].0 < first + |results| && results[skipped[k].0 - first] == Failure(skipped[k].1)
  }

  /** Skip positions strictly increase along `skipped`, so no record is
      skipped twice. */
  predicate SkipsAscending(skipped: seq<(nat, Skip)>) {
    forall k, m :: 0 <= k < m < |skipped| ==> skipped[k].0 < skipped[m].0
  }

  /** A skip placed in front of skips at later positions keeps them
      ascending. */
  lemma SkipsAscendingCons(e: (nat, Skip), skipped: seq<(nat, Skip)>)
    requires SkipsAscending(skipped)
    requires forall k :: 0 <= k < |skipped| ==> e.0 < skipped[k].0
    ensures SkipsAscending([e] + skipped)
  {
    var all := [e] + skipped;
    forall k, m | 0 <= k < m < |all|
      ensures all[k].0 < all[m].0
    {
      assert all[m] == skipped[m - 1];
      if k > 0 {
        assert all[k] == skipped[k - 1];
      }
    }
  }

  /** Every successful result carries the position it was made at. */
  predicate Positioned<T>(results: seq<Result<T, Skip>>, first: nat, pos: T -> nat) {
    forall j :: 0 <= j < |results| && results[j].Success? ==> pos(results[j].value) == first + j
  }

  /** Positions stay right when the first result is dropped. */
  lemma PositionedTail<T>(results: seq<Result<T, Skip>>, first: nat, pos: T -> nat)
    requires results != [] && Positioned(results, first, pos)
    ensures Positioned(results[1..], first + 1, pos)
  {
    forall j | 0 <= j < |results| - 1 && results[1..][j].Success?
      ensures pos(results[1..][j].value) == first + 1 + j
    {
      assert results[1..][j] == results[j + 1];
    }
  }

  /** Every successful result is among the rows. */
  predicate KeepsAll<T(==)>(rows: seq<T>, results: seq<Result<T, Skip>>) {
    forall j :: 0 <= j < |results| && results[j].Success? ==> results[j].value in rows
  }

  /** Rows that keep every later success, with the first result's row in
      front when it succeeded, keep every success. */
  lemma KeepsAllShift<T>(l: Option<T>, rows: seq<T>, results: seq<Result<T, Skip>>)
    requires results != []
    requires KeepsAll(rows, results[1..])
    requires results[0].Success? ==> l == Some(results[0].value)
    ensures KeepsAll((if l.Some? then [l.value] else []) + rows, results)
  {
    var all := (if l.Some? then [l.value] else []) + rows;
    forall j | 0 <= j < |results| && results[j].Success?
      ensures results[j].value in all
    {
      if j > 0 {
        assert results[1..][j - 1] == results[j];
        assert results[j].value in rows;
      }
    }
  }

  /** A row placed in front of rows at later positions keeps them
      ascending. */
  lemma AscendingCons<T>(l: T, rows: seq<T>, pos: T -> nat)
    requires Ascending(rows, pos)
    requires forall k :: 0 <= k < |rows| ==> pos(l) < pos(rows[k])
    ensures Ascending([l] + rows, pos)
  {
    var all := [l] + rows;
    forall k, m | 0 <= k < m < |all|
      ensures pos(all[k]) < pos(all[m])
    {
      assert all[m] == rows[m - 1];
      if k > 0 {
        assert all[k] == rows[k - 1];
      }
    }
  }

  /** Results one position further on, seen from one position earlier. */
  lemma RowsFromShift<T>(l: Option<T>, rows: seq<T>, results: seq<Result<T, Skip>>, first: nat, pos: T -> nat)
    requires results != []
    requires RowsFrom(rows, results[1..], first + 1, pos)
    requires l.Some? ==> results[0] == Success(l.value) && pos(l.value) == first
    ensures RowsFrom((if l.Some? then [l.value] else []) + rows, results, first, pos)
  {
    var all := (if l.Some? then [l.value] else []) + rows;
    forall k | 0 <= k < |all|
      ensures first <= pos(all[k]) < first + |results| && results[pos(all[k]) - first] == Success(all[k])
    {
      if l.Some? && k == 0 {
      } else {
        var r := if l.Some? then k - 1 else k;
        assert all[k] == rows[r];
        assert results[1..][pos(rows[r]) - first - 1] == results[pos(rows[r]) - first];
      }
    }
  }

  /** Skips one position further on, seen from one position earlier. */
  lemma SkipsFromShift<T>(e: Option<Skip>, skipped: seq<(nat, Skip)>, results: seq<Result<T, Skip>>, first: nat)
    requires results != []
    requires SkipsFrom(skipped, results[1..], first + 1)
    requires e.Some? ==> results[0] == Failure(e.value)
    ensures SkipsFrom((if e.Some? then [(first, e.value)] else []) + skipped, results, first)
  {
    var all := (if e.Some? then [(first, e.value)] else []) + skipped;
    forall k | 0 <= k < |all|
      ensures first <= all[k].0 < first + |results| && results[all[k].0 - first] == Failure(all[k].1)
    {
      if e.Some? && k == 0 {
      } else {
        var r := if e.Some? then k - 1 else k;
        assert all[k] == skipped[r];
        assert results[1..][skipped[r].0 - first - 1] == results[skipped[r].0 - first];
      }
    }
  }

  /** `c` gathers `results`, read from position `first` on: every result
      is either a row or a skip, rows and skips sit at the positions they
      came from, rows ascend, and no success is lost. */
  predicate Gathers<T(==)>(c: Gathered<T>, results: seq<Result<T, Skip>>, first: nat, pos: T -> nat) {
    && |c.rows| + |c.skipped| == |results|
    && RowsFrom(c.rows, results, first, pos)
    && SkipsFrom(c.skipped, results, first)
    && Ascending(c.rows, pos)
    && SkipsAscending(c.skipped)
    && KeepsAll(c.rows, results)
  }

  /** The first result put in front of the gathering of the rest. */
  function Prepend<T>(head: Result<T, Skip>, first: nat, rest: Gathered<T>): Gathered<T> {
    match head
    case Success(l) => Gathered([l] + rest.rows, rest.skipped)
    case Failure(e) => Gathered(rest.rows, [(first, e)] + rest.skipped)
  }

  /** Putting the first result in front of a gathering of the rest gathers
      the whole. */
  lemma PrependGathers<T>(results: seq<Result<T, Skip>>, first: nat, pos: T -> nat, rest: Gathered<T>)
    requires results != [] && Positioned(results, first, pos)
    requires Gathers(rest, results[1..], first + 1, pos)
    ensures Gathers(Prepend(results[0], first, rest), results, first, pos)
  {
    match results[0]
    case Success(l) =>
      assert pos(l) == first;
      PrependRow(results, first, pos, rest, l);
    case Failure(e) =>
      PrependSkip(results, first, pos, rest, e);
  }

  /** A first result that is a row, at the front of the rows gathered
      from the rest, gathers the whole. */
  lemma PrependRow<T>(results: seq<Result<T, Skip>>, first: nat, pos: T -> nat, rest: Gathered<T>, l: T)
    requires results != [] && results[0] == Success(l) && pos(l) == first
    requires Gathers(rest, results[1..], first + 1, pos)
    ensures Gathers(Gathered([l] + rest.rows, rest.skipped), results, first, pos)
  {
    RowsFromShift(Some(l), rest.rows, results, first, pos);
    SkipsFromShift(None, rest.skipped, results, first);
    AscendingCons(l, rest.rows, pos);
    KeepsAllShift(Some(l), rest.rows, results);
  }

  /** A first result that is a skip, at the front of the skips gathered
      from the rest, gathers the whole. */
  lemma PrependSkip<T>(results: seq<Result<T, Skip>>, first: nat, pos: T -> nat, rest: Gathered<T>, e: Skip)
    requires results != [] && results[0] == Failure(e)
    requires Gathers(rest, results[1..], first + 1, pos)
    ensures Gathers(Gathered(rest.rows, [(first, e)] + rest.skipped), results, first, pos)
  {
    RowsFromShift(None, rest.rows, results, first, pos);
    SkipsFromShift(Some(e), rest.skipped, results, first);
    SkipsAscendingCons((first, e), rest.skipped);
    KeepsAllShift(None, rest.rows, results);
  }

  /** Per-record results, from position `first` on, gathered into rows
      and skips in input order; `pos` reads back the position a row was
      made at. */
  function Collect<T(==)>(results: seq<Result<T, Skip>>, first: nat, pos: T -> nat): (c: Gathered<T>)
    requires Positioned(results, first, pos)
    ensures Gathers(c, results, first, pos)
    decreases |results|
  {
    if results == [] then Gathered([], [])
    else
      PositionedTail(results, first, pos);
      var rest := Collect(results[1..], first + 1, pos);
      PrependGathers(results, first, pos, rest);
      Prepend(results[0], first, rest)
  }

  /** Every record's result, at 1-based positions. */
  function Results(items: seq<RawItem>, env: Env): (rs: seq<Result<Listing, Skip>>)
    ensures |rs| == |items|
    ensures forall j :: 0 <= j < |items| ==> rs[j] == AssembleItem(items[j], j + 1, env)
    ensures Positioned(rs, 1, Position)
  {
    seq(|items|, j requires 0 <= j < |items| => AssembleItem(items[j], j + 1, env))
  }

  /** `convert_to_smartstore_upload_format`: each record's result at its
      1-based position, skipped records included, gathered into rows and
      skips. An empty result is the empty frame, and no records give no
      rows. */
  function ConvertToUploadFormat(items: seq<RawItem>, env: Env): (c: Gathered<Listing>)
    ensures |c.rows| + |c.skipped| == |items|
    ensures Ascending(c.rows, Position)
    ensures SkipsAscending(c.skipped)
    ensures RowsFrom(c.rows, Results(items, env), 1, Position)
    ensures SkipsFrom(c.skipped, Results(items, env), 1)
    ensures KeepsAll(c.rows, Results(items, env))
  {
    Collect(Results(items, env), 1, Position)
  }

  /** `l` is what the record at 1-based position `p` assembles to. */
  predicate RowOf(items: seq<RawItem>, env: Env, p: nat, l: Listing) {
    1 <= p <= |items| && AssembleItem(items[p - 1], p, env) == Success(l)
  }

  /** Each row is what the record at its position assembles to. */
  lemma ConvertedRows(items: seq<RawItem>, env: Env)
    ensures var c := ConvertToUploadFormat(items, env);
      forall k :: 0 <= k < |c.rows| ==> RowOf(items, env, Position(c.rows[k]), c.rows[k])
  {
    RowsOf(items, env, ConvertToUploadFormat(items, env).rows, Results(items, env));
  }

  /** Rows drawn from the per-record results are what their records
      assemble to. */
  lemma RowsOf(items: seq<RawItem>, env: Env, rows: seq<Listing>, rs: seq<Result<Listing, Skip>>)
    requires |rs| == |items|
    requires forall j :: 0 <= j < |items| ==> rs[j] == AssembleItem(items[j], j + 1, env)
    requires RowsFrom(rows, rs, 1, Position)
    ensures forall k :: 0 <= k < |rows| ==> RowOf(items, env, Position(rows[k]), rows[k])
  {
    forall k | 0 <= k < |rows|
      ensures RowOf(items, env, Position(rows[k]), rows[k])
    {
      RowAt(rows, rs, k);
    }
  }

  /** Row `k` is the successful result at the 1-based position it
      carries. */
  lemma RowAt(rows: seq<Listing>, rs: seq<Result<Listing, Skip>>, k: nat)
    requires RowsFrom(rows, rs, 1, Position) && k < |rows|
    ensures 1 <= Position(rows[k]) <= |rs| && rs[Position(rows[k]) - 1] == Success(rows[k])
  {
  }

  /** Every accepted record's row is among the rows. */
  lemma ConvertedAccepted(items: seq<RawItem>, env: Env)
    ensures forall j :: 0 <= j < |items| && Accepted(items[j]) ==>
      AssembleItem(items[j], j + 1, env).value in ConvertToUploadFormat(items, env).rows
  {
    var rs := Results(items, env);
    forall j | 0 <= j < |items| && Accepted(items[j])
      ensures AssembleItem(items[j], j + 1, env).value in ConvertToUploadFormat(items, env).rows
    {
      assert rs[j].Success?;
    }
  }

  /** The record at 1-based position `p` is not accepted and assembles
      to the skip reason `e`. */
  predicate SkipOf(items: seq<RawItem>, env: Env, p: nat, e: Skip) {
    1 <= p <= |items| && !Accepted(items[p - 1]) && AssembleItem(items[p - 1], p, env) == Failure(e)
  }

  /** Each skip names a record that was not accepted, and why. */
  lemma ConvertedSkips(items: seq<RawItem>, env: Env)
    ensures var c := ConvertToUploadFormat(items, env);
      forall k :: 0 <= k < |c.skipped| ==> SkipOf(items, env, c.skipped[k].0, c.skipped[k].1)
  {
    SkipsOf(items, env, ConvertToUploadFormat(items, env).skipped, Results(items, env));
  }

  /** Skips drawn from the per-record results name records that were not
      accepted, and why. */
  lemma SkipsOf(items: seq<RawItem>, env: Env, skipped: seq<(nat, Skip)>, rs: seq<Result<Listing, Skip>>)
    requires |rs| == |items|
    requires forall j :: 0 <= j < |items| ==> rs[j] == AssembleItem(items[j], j + 1, env)
    requires SkipsFrom(skipped, rs, 1)
    ensures forall k :: 0 <= k < |skipped| ==> SkipOf(items, env, skipped[k].0, skipped[k].1)
  {
    forall k | 0 <= k < |skipped|
      ensures SkipOf(items, env, skipped[k].0, skipped[k].1)
    {
      SkipAt(skipped, rs, k);
    }
  }

  /** Skip `k` is the failed result at the 1-based position it records. */
  lemma SkipAt(skipped: seq<(nat, Skip)>, rs: seq<Result<Listing, Skip>>, k: nat)
    requires SkipsFrom(skipped, rs, 1) && k < |skipped|
    ensures 1 <= skipped[k].0 <= |rs| && rs[skipped[k].0 - 1] == Failure(skipped[k].1)
  {
  }

  /** No rows come out exactly when no record is accepted. */
  lemma ConvertedNone(items: seq<RawItem>, env: Env)
    ensures ConvertToUploadFormat(items, env).rows == [] <==> forall j :: 0 <= j < |items| ==> !Accepted(items[j])
  {
    var rows := ConvertToUploadFormat(items, env).rows;
    ConvertedAccepted(items, env);
    ConvertedRows(items, env);
    if rows != [] {
      assert RowOf(items, env, Position(rows[0]), rows[0]);
    }
  }
}
