/** The batch publisher of the Naver Commerce API client: converting an
    Amazon record into a Naver product, uploading its images, registering
    a batch with per-item failure accounting, and the registration
    manager's profit filter and daily cap. Authentication, image upload,
    product submission and text formatting are oracles. */
module Publisher {
  import opened Wrappers
  import opened Text
  import opened Records

  /** The fixed exchange rate, won per dollar. */
  const UsdToKrw: int := 1350

  /** The category used for a category the mapping does not know. */
  const DefaultNaverCategory: string := "50002617"

  /** The client's Amazon-to-Naver category mapping. */
  const CategoryMapping: map<string, string> := map[
    "diet supplements" := "50002617",
    "protein powder" := "50002617",
    "granola cereal" := "50000163",
    "health supplements" := "50002617",
    "baby clothes ballet" := "50000671",
    "gaming accessories" := "50000056",
    "medical equipment" := "50002617",
    "brand accessories" := "50000057",
    "home garden" := "50000078",
    "sports outdoor" := "50000080"
  ]

  /** The least magnitude a Python float cannot hold, 2^1024 - 2^970:
      a number at least this large rounds to infinity. `float()` of such an
      int raises OverflowError, and so does `int()` of the infinity a float
      product overflows to. */
  const FloatLimit: real := 179769313486231580793728971405303415079934132710037826936173778980444968292764750946649017977587207096330286416692887910946555547851940402630657488671505820681908902000708383676273854845817711531764475730270069855571366959622842914819860834936475292719074168444365510704342711559699508093042880177904174497792.0

  /** `x` lies beyond every finite float. */
  predicate Overflows(x: real) {
    x <= -FloatLimit || FloatLimit <= x
  }

  /** Python `int(x)` on a float: truncation toward zero. */
  function Trunc(x: real): (r: int)
    ensures 0.0 <= x ==> 0 <= r && r as real <= x < r as real + 1.0
    ensures x <= 0.0 ==> r <= 0 && r as real - 1.0 < x <= r as real
  {
    if x >= 0.0 then x.Floor else -((-x).Floor)
  }

  /** Python `s * n` on a string: `n` copies of `s`. The result starts
      with `s` and repeats with period `|s|`, which fixes every character. */
  function Repeat(s: string, n: nat): (r: string)
    ensures |r| == |s| * n
    ensures n > 0 ==> r[..|s|] == s
    ensures forall k :: 0 <= k < |r| - |s| ==> r[k + |s|] == r[k]
  {
    if n == 0 then []
    else
      var rest := Repeat(s, n - 1);
      var r := s + rest;
      forall k | 0 <= k < |r| - |s|
        ensures r[k + |s|] == r[k]
      {
        if k < |s| {
          assert rest[..|s|][k] == s[k];
        } else {
          assert rest[k] == rest[k - |s|];
        }
      }
      assert r[..|s|] == s;
      r
  }

  /** Why a record cannot be converted: the exception the source raises. */
  datatype ConvertError =
    | MissingKey(key: string)  // KeyError
    | BadValue(key: string)    // TypeError or ValueError on that field
    | TooLarge(key: string)    // OverflowError: that field's price is beyond the float range

  /** What the client depends on besides the record: Python `int` on text
      (`None` where it raises), `str` of a non-string value, the marketing
      description text, the image upload (`None` where it fails), and the
      product submission, which returns the `originProductId` the API
      answered with (`Null` on any failure). */
  datatype Api = Api(
    parseInt: string -> Option<int>,
    show: Value -> string,
    describe: map<string, Value> -> string,
    upload: Value -> Option<string>,
    submit: (NaverProduct, seq<string>) -> Value)

  /** The Naver product a record converts to. */
  datatype NaverProduct = NaverProduct(
    productName: string, categoryId: string, price: int, discountPrice: int,
    description: string, brandName: Value, originCountry: string, manufacturer: Value,
    images: seq<Value>, deliveryFee: int, deliveryMethod: string, status: string, adultProduct: bool)

  /** `int(amazon_product['price_usd'] * 1350)`: a whole number is
      multiplied, a float is multiplied and truncated, and text is repeated
      1350 times and then parsed as a whole number, as Python does. A
      float product beyond the float range is infinity, which `int()`
      rejects with OverflowError. */
  function PriceKrw(fields: map<string, Value>, api: Api): (r: Result<int, ConvertError>)
    ensures "price_usd" !in fields ==> r == Failure(MissingKey("price_usd"))
    ensures "price_usd" in fields && fields["price_usd"].Int? ==> r == Success(fields["price_usd"].n * UsdToKrw)
    ensures "price_usd" in fields && fields["price_usd"].Num? ==>
      var x := fields["price_usd"].x * UsdToKrw as real;
      && (Overflows(x) ==> r == Failure(TooLarge("price_usd")))
      && (!Overflows(x) ==> r == Success(Trunc(x)))
      && (!Overflows(x) && 0.0 <= x ==> 0 <= r.value && r.value as real <= x < r.value as real + 1.0)
    ensures "price_usd" in fields && fields["price_usd"].Str? ==>
      var parsed := api.parseInt(Repeat(fields["price_usd"].s, UsdToKrw as nat));
      && (parsed.Some? ==> r == Success(parsed.value))
      && (parsed.None? ==> r == Failure(BadValue("price_usd")))
    ensures "price_usd" in fields && (fields["price_usd"].List? || fields["price_usd"].Null?) ==>
      r == Failure(BadValue("price_usd"))
  {
    if "price_usd" !in fields then Failure(MissingKey("price_usd"))
    else match fields["price_usd"]
      case Int(n) => Success(n * UsdToKrw)
      case Num(x) =>
        if Overflows(x * UsdToKrw as real) then Failure(TooLarge("price_usd"))
        else Success(Trunc(x * UsdToKrw as real))
      case Str(s) =>
        (match api.parseInt(Repeat(s, UsdToKrw as nat))
         case Some(n) => Success(n)
         case None => Failure(BadValue("price_usd")))
      case _ => Failure(BadValue("price_usd"))
  }

  /** The 35% markup, truncated. */
  function SellingPrice(krw: int): int {
    Trunc(krw as real * 1.35)
  }

  /** `int(original_price_krw * 1.35)`: the won price is made a float and
      marked up, which raises OverflowError when the result is beyond the
      float range; otherwise the markup truncated. */
  function MarkUp(krw: int): (r: Result<int, ConvertError>)
    ensures r.Failure? <==> Overflows(krw as real * 1.35)
    ensures r.Failure? ==> r.error == TooLarge("price_usd")
    ensures r.Success? ==> r.value == SellingPrice(krw) && !Overflows(r.value as real)
    ensures r.Success? && krw >= 0 ==> krw <= r.value
  {
    if Overflows(krw as real * 1.35) then Failure(TooLarge("price_usd"))
    else Success(SellingPrice(krw))
  }

  /** The 5% discount, truncated. */
  function DiscountPrice(selling: int): int {
    Trunc(selling as real * 0.95)
  }

  /** For a non-negative price the markup never lowers it and the discount
      never raises it. */
  lemma PricesOrdered(krw: int)
    requires krw >= 0
    ensures krw <= SellingPrice(krw)
    ensures 0 <= DiscountPrice(SellingPrice(krw)) <= SellingPrice(krw)
  {
  }

  /** A negative dollar price, which nothing rejects, gives a discount
      price above the selling price: truncation toward zero moves the
      larger magnitude further. */
  lemma NegativePriceDiscountAbove()
    ensures SellingPrice(-1 * UsdToKrw) == -1822
    ensures DiscountPrice(SellingPrice(-1 * UsdToKrw)) == -1730
  {
  }

  /** `category_mapping.get(amazon_product.get('category', ''), default)`:
      a known text key maps, any other hashable value gets the default, and
      a list (unhashable) raises. */
  function CategoryOf(fields: map<string, Value>): (r: Result<string, ConvertError>)
    ensures r.Failure? <==> Get(fields, "category", Str("")).List?
    ensures r.Success? ==> r.value == DefaultNaverCategory || r.value in CategoryMapping.Values
    ensures var c := Get(fields, "category", Str(""));
      c.Str? && c.s in CategoryMapping ==> r == Success(CategoryMapping[c.s])
    ensures var c := Get(fields, "category", Str(""));
      !c.List? && !(c.Str? && c.s in CategoryMapping) ==> r == Success(DefaultNaverCategory)
  {
    match Get(fields, "category", Str(""))
    case List(_) => Failure(BadValue("category"))
    case Str(s) => Success(if s in CategoryMapping then CategoryMapping[s] else DefaultNaverCategory)
    case _ => Success(DefaultNaverCategory)
  }

  /** Python `str` of a value in an f-string. */
  function Display(v: Value, api: Api): string {
    if v.Str? then v.s else api.show(v)
  }

  /** A value Python can slice: text or a list. */
  predicate Sliceable(v: Value) {
    v.Str? || v.List?
  }

  /** `amazon_product['title'][:80]` as the f-string shows it. */
  function ShortTitle(v: Value, api: Api): (r: string)
    requires Sliceable(v)
    ensures v.Str? ==> r == Take(v.s, 80)
  {
    match v
    case Str(s) => Take(s, 80)
    case List(items) => api.show(List(Take80(items)))
  }

  /** The first 80 items of a list. */
  function Take80<T>(items: seq<T>): (r: seq<T>)
    ensures |r| <= 80 && r <= items
  {
    if |items| <= 80 then items else items[..80]
  }

  /** The won price marked up, as far as the price gets: the first step of
      the two to raise decides the error. */
  function Priced(fields: map<string, Value>, api: Api): (r: Result<int, ConvertError>)
    ensures PriceKrw(fields, api).Failure? ==> r == Failure(PriceKrw(fields, api).error)
    ensures PriceKrw(fields, api).Success? ==> r == MarkUp(PriceKrw(fields, api).value)
  {
    match PriceKrw(fields, api)
    case Failure(e) => Failure(e)
    case Success(krw) => MarkUp(krw)
  }

  /** `convert_amazon_to_naver_product`. The price is converted and marked
      up first, then the category looked up, then the title read; the first
      of them to raise decides the error. */
  function ConvertAmazonToNaver(fields: map<string, Value>, api: Api): (r: Result<NaverProduct, ConvertError>)
    ensures PriceKrw(fields, api).Failure? ==> r == Failure(PriceKrw(fields, api).error)
    ensures PriceKrw(fields, api).Success? && Overflows(PriceKrw(fields, api).value as real * 1.35) ==>
      r == Failure(TooLarge("price_usd"))
    ensures Priced(fields, api).Success? && CategoryOf(fields).Failure? ==> r == Failure(BadValue("category"))
    ensures Priced(fields, api).Success? && CategoryOf(fields).Success? ==>
      && ("title" !in fields ==> r == Failure(MissingKey("title")))
      && ("title" in fields && !Sliceable(fields["title"]) ==> r == Failure(BadValue("title")))
    ensures r.Success? <==>
      && PriceKrw(fields, api).Success? && !Overflows(PriceKrw(fields, api).value as real * 1.35)
      && CategoryOf(fields).Success? && "title" in fields && Sliceable(fields["title"])
    ensures r.Success? ==>
      var p := r.value;
      var brand := Get(fields, "brand", Str("Amazon"));
      && p.price == SellingPrice(PriceKrw(fields, api).value)
      && !Overflows(p.price as real)
      && p.discountPrice == DiscountPrice(p.price)
      && (PriceKrw(fields, api).value >= 0 ==> p.discountPrice <= p.price)
      && p.categoryId == CategoryOf(fields).value
      && p.productName == "[" + Display(brand, api) + "] " + ShortTitle(fields["title"], api)
      && (fields["title"].Str? ==> |p.productName| <= |Display(brand, api)| + 3 + 80)
      && p.brandName == brand && p.manufacturer == brand
      && p.images == [Get(fields, "image_url", Str(""))]
      && p.deliveryFee == 3000
  {
    match Priced(fields, api)
    case Failure(e) => Failure(e)
    case Success(selling) =>
      match CategoryOf(fields)
      case Failure(e) => Failure(e)
      case Success(category) =>
        if "title" !in fields then Failure(MissingKey("title"))
        else if !Sliceable(fields["title"]) then Failure(BadValue("title"))
        else
          assert PriceKrw(fields, api).value >= 0 ==> DiscountPrice(selling) <= selling by {
            if PriceKrw(fields, api).value >= 0 {
              PricesOrdered(PriceKrw(fields, api).value);
            }
          }
          var brand := Get(fields, "brand", Str("Amazon"));
          Success(NaverProduct(
            "[" + Display(brand, api) + "] " + ShortTitle(fields["title"], api),
            category, selling, DiscountPrice(selling), api.describe(fields),
            brand, "미국", brand, [Get(fields, "image_url", Str(""))],
            3000, "DELIVERY", "SALE", false))
  }

  /** A won price that `int()` accepted but that the markup takes beyond the
      float range fails the record with OverflowError. A text price "20"
      is one: its 1350 copies parse to a 2700-digit number. */
  lemma HugePriceRejected(fields: map<string, Value>, api: Api)
    requires PriceKrw(fields, api).Success? && FloatLimit <= PriceKrw(fields, api).value as real
    ensures ConvertAmazonToNaver(fields, api) == Failure(TooLarge("price_usd"))
    ensures ProcessItem(fields, api).NotRegistered?
    ensures ProcessItem(fields, api).failure.reason != RegistrationFailed
  {
  }

  /** One image URL's contribution: an upload is tried only for a truthy
      URL, and kept only when it answers with a non-empty URL. */
  function Uploaded(url: Value, api: Api): (r: seq<string>)
    ensures |r| <= 1
    ensures r != [] <==> Truthy(url) && api.upload(url).Some? && api.upload(url).value != []
    ensures r != [] ==> r[0] == api.upload(url).value
  {
    if Truthy(url) then
      match api.upload(url)
      case Some(u) => if u != [] then [u] else []
      case None => []
    else []
  }

  /** `image` is what the upload of some truthy URL of `urls` answered. */
  predicate UploadOf(urls: seq<Value>, api: Api, image: string) {
    exists j :: 0 <= j < |urls| && Truthy(urls[j]) && api.upload(urls[j]) == Some(image)
  }

  /** The uploaded images of a URL list, in order: the reference the image
      loop of `register_product` is checked against. */
  function UploadedAll(urls: seq<Value>, api: Api): (r: seq<string>)
    ensures |r| <= |urls|
    ensures forall k :: 0 <= k < |r| ==> r[k] != [] && UploadOf(urls, api, r[k])
  {
    if urls == [] then []
    else
      var init := UploadedAll(urls[..|urls| - 1], api);
      var last := Uploaded(urls[|urls| - 1], api);
      assert forall k :: 0 <= k < |init| ==> UploadOf(urls, api, init[k]) by {
        forall k | 0 <= k < |init|
          ensures UploadOf(urls, api, init[k])
        {
          var pre := urls[..|urls| - 1];
          assert UploadOf(pre, api, init[k]);
          var j :| 0 <= j < |pre| && Truthy(pre[j]) && api.upload(pre[j]) == Some(init[k]);
          assert pre[j] == urls[j];
          assert 0 <= j < |urls| && Truthy(urls[j]) && api.upload(urls[j]) == Some(init[k]);
        }
      }
      init + last
  }

  /** The images of two URL lists are those of the first followed by those
      of the second, so the uploaded list keeps input order and one entry
      per successful upload. */
  lemma {:induction false} UploadedAllAppend(a: seq<Value>, b: seq<Value>, api: Api)
    ensures UploadedAll(a + b, api) == UploadedAll(a, api) + UploadedAll(b, api)
    decreases |b|
  {
    var x := a + b;
    if b == [] {
      assert x == a;
    } else {
      var init, last := b[..|b| - 1], b[|b| - 1];
      assert x[..|x| - 1] == a + init && x[|x| - 1] == last;
      assert UploadedAll(x, api) == UploadedAll(a + init, api) + Uploaded(last, api);
      assert UploadedAll(b, api) == UploadedAll(init, api) + Uploaded(last, api);
      UploadedAllAppend(a, init, api);
    }
  }

  /** A single URL contributes what its own upload gives. */
  lemma UploadedAllOne(url: Value, api: Api)
    ensures UploadedAll([url], api) == Uploaded(url, api)
  {
    assert [url][..0] == [];
  }

  /** Every URL that is truthy and uploads to a non-empty URL is kept, and
      a failed upload drops only its own image. */
  lemma {:induction false} UploadedKeepsSuccesses(urls: seq<Value>, api: Api, j: nat)
    requires j < |urls| && Truthy(urls[j]) && api.upload(urls[j]).Some? && api.upload(urls[j]).value != []
    ensures api.upload(urls[j]).value in UploadedAll(urls, api)
    decreases |urls|
  {
    var init := urls[..|urls| - 1];
    if j == |urls| - 1 {
      assert Uploaded(urls[j], api) == [api.upload(urls[j]).value];
    } else {
      assert init[j] == urls[j];
      UploadedKeepsSuccesses(init, api, j);
    }
  }

  /** The image loop of `register_product`: each truthy URL is uploaded in
      turn and the non-empty answers are collected; a failure skips that
      image and never stops the loop. */
  method UploadImages(urls: seq<Value>, api: Api) returns (uploaded: seq<string>)
    ensures uploaded == UploadedAll(urls, api)
  {
    uploaded := [];
    var i := 0;
    while i < |urls|
      invariant 0 <= i <= |urls|
      invariant uploaded == UploadedAll(urls[..i], api)
    {
      assert urls[..i + 1][..i] == urls[..i];
      var url := urls[i];
      if Truthy(url) {
        var answer := api.upload(url);
        if answer.Some? && answer.value != [] {
          uploaded := uploaded + [answer.value];
        }
      }
      i := i + 1;
    }
    assert urls[..i] == urls;
  }

  /** `register_product`: the images are uploaded, then the product is
      submitted with the uploaded ones; the answer is the product id, falsy
      when registration failed. */
  function RegisterProduct(p: NaverProduct, api: Api): Value {
    api.submit(p, UploadedAll(p.images, api))
  }

  /** Why an item of a batch failed. */
  datatype FailReason =
    | RegistrationFailed          // "등록 실패": the API gave no product id
    | Raised(error: ConvertError) // the exception's message

  /** One entry of `success_products`. */
  datatype SuccessEntry = SuccessEntry(productName: string, productId: Value, price: int)

  /** One entry of `failed_products`; the name is the record's title. */
  datatype FailureEntry = FailureEntry(productName: Value, reason: FailReason)

  /** What one record of a batch comes to. */
  datatype ItemResult = Registered(entry: SuccessEntry) | NotRegistered(failure: FailureEntry)

  /** One record of `batch_register_products`: the progress log slices the
      title first (raising for a title that cannot be sliced), then the
      record is converted and registered. */
  function ProcessItem(fields: map<string, Value>, api: Api): (r: ItemResult)
    ensures r.Registered? <==>
      && Sliceable(Get(fields, "title", Str("")))
      && ConvertAmazonToNaver(fields, api).Success?
      && Truthy(RegisterProduct(ConvertAmazonToNaver(fields, api).value, api))
    ensures r.Registered? ==>
      var p := ConvertAmazonToNaver(fields, api).value;
      r.entry == SuccessEntry(p.productName, RegisterProduct(p, api), p.price)
    ensures r.NotRegistered? ==> r.failure.productName == Get(fields, "title", Str(""))
  {
    var title := Get(fields, "title", Str(""));
    if !Sliceable(title) then NotRegistered(FailureEntry(title, Raised(BadValue("title"))))
    else match ConvertAmazonToNaver(fields, api)
      case Failure(e) => NotRegistered(FailureEntry(title, Raised(e)))
      case Success(p) =>
        var id := RegisterProduct(p, api);
        if Truthy(id) then Registered(SuccessEntry(p.productName, id, p.price))
        else NotRegistered(FailureEntry(title, RegistrationFailed))
  }

  /** The `results` dictionary of a completed batch. */
  datatype BatchResult = BatchResult(
    total: nat, success: nat, failed: nat,
    successProducts: seq<SuccessEntry>, failedProducts: seq<FailureEntry>)

  /** The counts add up, and each list is as long as its count. */
  predicate Accounted(r: BatchResult) {
    && r.success + r.failed == r.total
    && |r.successProducts| == r.success
    && |r.failedProducts| == r.failed
  }

  /** The results after the records `items`, out of `total`, processed in
      order: the reference for the loop of `batch_register_products`. */
  function Tally(items: seq<map<string, Value>>, total: nat, api: Api): (r: BatchResult)
    ensures r.total == total
    ensures r.success + r.failed == |items|
    ensures |r.successProducts| == r.success && |r.failedProducts| == r.failed
  {
    if items == [] then BatchResult(total, 0, 0, [], [])
    else
      var before := Tally(items[..|items| - 1], total, api);
      Record(before, ProcessItem(items[|items| - 1], api))
  }

  /** One item's result recorded: exactly one counter and its list grow. */
  function Record(r: BatchResult, item: ItemResult): (s: BatchResult)
    ensures s.total == r.total
    ensures item.Registered? ==>
      s.success == r.success + 1 && s.failed == r.failed
      && s.successProducts == r.successProducts + [item.entry] && s.failedProducts == r.failedProducts
    ensures item.NotRegistered? ==>
      s.failed == r.failed + 1 && s.success == r.success
      && s.failedProducts == r.failedProducts + [item.failure] && s.successProducts == r.successProducts
  {
    match item
    case Registered(e) => r.(success := r.success + 1, successProducts := r.successProducts + [e])
    case NotRegistered(f) => r.(failed := r.failed + 1, failedProducts := r.failedProducts + [f])
  }

  /** Every record that registers appears among the successes, in input
      order: the successes of a longer batch extend those of its prefix. */
  lemma {:induction false} TallyPrefix(items: seq<map<string, Value>>, n: nat, total: nat, api: Api)
    requires n <= |items|
    ensures Tally(items[..n], total, api).successProducts <= Tally(items, total, api).successProducts
    ensures Tally(items[..n], total, api).failedProducts <= Tally(items, total, api).failedProducts
    decreases |items|
  {
    if n < |items| {
      var init := items[..|items| - 1];
      assert init[..n] == items[..n];
      TallyPrefix(init, n, total, api);
    } else {
      assert items[..n] == items;
    }
  }

  /** How a batch ends. */
  datatype BatchOutcome =
    | AuthFailed                      // {"error": "인증 실패"}; nothing converted
    | Aborted                         // a non-dictionary item: {"error": ...}
    | Completed(result: BatchResult)

  /** The dictionaries of a list of records that are all dictionaries. */
  function FieldsOf(items: seq<RawItem>): (r: seq<map<string, Value>>)
    requires forall j :: 0 <= j < |items| ==> items[j].Record?
    ensures |r| == |items|
    ensures forall j :: 0 <= j < |items| ==> r[j] == items[j].fields
  {
    seq(|items|, j requires 0 <= j < |items| => items[j].fields)
  }

  /** One more record of an all-dictionary list adds one step to the tally. */
  lemma TallyStep(items: seq<RawItem>, i: nat, total: nat, api: Api)
    requires i < |items|
    requires forall j :: 0 <= j <= i ==> items[j].Record?
    ensures Tally(FieldsOf(items[..i + 1]), total, api)
         == Record(Tally(FieldsOf(items[..i]), total, api), ProcessItem(items[i].fields, api))
  {
    var f := FieldsOf(items[..i + 1]);
    assert f[..|f| - 1] == FieldsOf(items[..i]);
    assert f[|f| - 1] == items[i].fields;
  }

  /** `batch_register_products`. Authentication failure ends the batch
      before any record is touched. A record that is not a dictionary makes
      the failure handler itself raise, which ends the batch with an error
      in place of the results. */
  method BatchRegisterProducts(items: seq<RawItem>, authenticated: bool, api: Api) returns (r: BatchOutcome)
    ensures r == Batch(items, authenticated, api)
    ensures !authenticated ==> r == AuthFailed
    ensures authenticated && (exists j :: 0 <= j < |items| && items[j].NotARecord?) ==> r == Aborted
    ensures authenticated && (forall j :: 0 <= j < |items| ==> items[j].Record?) ==>
      r == Completed(Tally(FieldsOf(items), |items|, api))
    ensures r.Completed? ==> Accounted(r.result) && r.result.total == |items|
  {
    if !authenticated {
      return AuthFailed;
    }
    var results := BatchResult(|items|, 0, 0, [], []);
    var i := 0;
    while i < |items|
      invariant 0 <= i <= |items|
      invariant forall j :: 0 <= j < i ==> items[j].Record?
      invariant results == Tally(FieldsOf(items[..i]), |items|, api)
    {
      match items[i]
      case NotARecord =>
        return Aborted;
      case Record(fields) =>
        TallyStep(items, i, |items|, api);
        results := Record(results, ProcessItem(fields, api));
      i := i + 1;
    }
    assert items[..i] == items;
    r := Completed(results);
  }

  /** The outcome of a batch as one expression. */
  function Batch(items: seq<RawItem>, authenticated: bool, api: Api): BatchOutcome {
    if !authenticated then AuthFailed
    else if exists j :: 0 <= j < |items| && items[j].NotARecord? then Aborted
    else Completed(Tally(FieldsOf(items), |items|, api))
  }

  /** The manager's settings, with the defaults of `config.get`. */
  datatype Config = Config(profitMarginThreshold: real, maxDailyRegistrations: int)

  const DefaultConfig: Config := Config(30.0, 100)

  /** Python's `margin >= threshold`: numbers compare, any other value
      raises. */
  function AtLeast(v: Value, threshold: real): (r: Option<bool>)
    ensures r.Some? <==> v.Int? || v.Num?
    ensures v.Int? ==> r == Some(v.n as real >= threshold)
    ensures v.Num? ==> r == Some(v.x >= threshold)
  {
    match v
    case Int(n) => Some(n as real >= threshold)
    case Num(x) => Some(x >= threshold)
    case _ => None
  }

  /** The profit margin of a record; an absent one is 0. */
  function Margin(fields: map<string, Value>): Value {
    Get(fields, "profit_margin", Int(0))
  }

  /** The filter can judge `item`: a dictionary whose margin is a number. */
  predicate Judgeable(item: RawItem) {
    item.Record? && (Margin(item.fields).Int? || Margin(item.fields).Num?)
  }

  /** `item` is a dictionary whose margin reaches the threshold. */
  predicate Profitable(item: RawItem, threshold: real) {
    Judgeable(item) && AtLeast(Margin(item.fields), threshold) == Some(true)
  }

  /** The profitability filter of `register_amazon_products`: the records
      whose margin reaches the threshold, in order; `None` when some record
      makes the comparison raise. */
  function ProfitFilter(items: seq<RawItem>, threshold: real): (r: Option<seq<RawItem>>)
    ensures r.Some? <==> forall j :: 0 <= j < |items| ==> Judgeable(items[j])
    ensures r.Some? ==> |r.value| <= |items|
    ensures r.Some? ==> forall k :: 0 <= k < |r.value| ==> r.value[k] in items && Profitable(r.value[k], threshold)
    ensures r.Some? ==> forall j :: 0 <= j < |items| && Profitable(items[j], threshold) ==> items[j] in r.value
  {
    if items == [] then Some([])
    else
      var item := items[0];
      if !Judgeable(item) then None
      else match ProfitFilter(items[1..], threshold)
        case None => None
        case Some(rest) =>
          assert forall j :: 1 <= j < |items| ==> items[j] == items[1..][j - 1];
          if Profitable(item, threshold) then Some([item] + rest) else Some(rest)
  }

  /** Filtering two lists one after the other is filtering their
      concatenation: passing records keep their order and multiplicity,
      and the filter raises when either part does. */
  lemma {:induction false} ProfitFilterAppend(a: seq<RawItem>, b: seq<RawItem>, threshold: real)
    ensures ProfitFilter(a + b, threshold) ==
      if ProfitFilter(a, threshold).Some? && ProfitFilter(b, threshold).Some?
      then Some(ProfitFilter(a, threshold).value + ProfitFilter(b, threshold).value)
      else None
    decreases |a|
  {
    if a == [] {
      assert a + b == b;
      assert ProfitFilter(a, threshold) == Some([]);
      if ProfitFilter(b, threshold).Some? {
        assert [] + ProfitFilter(b, threshold).value == ProfitFilter(b, threshold).value;
      }
    } else {
      assert (a + b)[0] == a[0];
      assert (a + b)[1..] == a[1..] + b;
      ProfitFilterAppend(a[1..], b, threshold);
      var ra, rb := ProfitFilter(a[1..], threshold), ProfitFilter(b, threshold);
      if Judgeable(a[0]) && ra.Some? && rb.Some? && Profitable(a[0], threshold) {
        assert [a[0]] + (ra.value + rb.value) == ([a[0]] + ra.value) + rb.value;
      }
    }
  }

  /** One record passes exactly when it is profitable, and makes the
      filter raise when its margin cannot be compared. */
  lemma ProfitFilterOne(item: RawItem, threshold: real)
    ensures ProfitFilter([item], threshold) ==
      if !Judgeable(item) then None
      else if Profitable(item, threshold) then Some([item])
      else Some([])
  {
    assert [item][1..] == [];
    assert [item] + [] == [item];
  }

  /** Python's `s[:n]`: a negative `n` counts from the end. */
  function Cap<T>(s: seq<T>, n: int): (r: seq<T>)
    ensures r <= s
    ensures n >= 0 ==> |r| <= n && (|s| <= n ==> r == s) && (|s| > n ==> |r| == n)
    ensures n < 0 ==> |r| == if |s| + n > 0 then |s| + n else 0
  {
    if n >= 0 then (if |s| <= n then s else s[..n])
    else if |s| + n > 0 then s[..|s| + n] else []
  }

  /** What `register_amazon_products` does with the records: the filter
      raised, or the records it handed to the batch and the batch's
      outcome. */
  datatype ManagerOutcome = FilterRaised | Ran(sent: seq<RawItem>, outcome: BatchOutcome)

  /** `register_amazon_products`: the profitable records, capped at the
      daily limit when there are more of them, go to the batch. */
  function RegisterAmazonProducts(items: seq<RawItem>, config: Config, authenticated: bool, api: Api): (r: ManagerOutcome)
    ensures r.FilterRaised? <==> exists j :: 0 <= j < |items| && !Judgeable(items[j])
    ensures r.Ran? ==> r.sent == Cap(ProfitFilter(items, config.profitMarginThreshold).value, config.maxDailyRegistrations)
    ensures r.Ran? ==> forall k :: 0 <= k < |r.sent| ==> r.sent[k] in items && Profitable(r.sent[k], config.profitMarginThreshold)
    ensures r.Ran? && config.maxDailyRegistrations >= 0 ==> |r.sent| <= config.maxDailyRegistrations
    ensures r.Ran? && config.maxDailyRegistrations >= |items| ==>
      forall j :: 0 <= j < |items| && Profitable(items[j], config.profitMarginThreshold) ==> items[j] in r.sent
    ensures r.Ran? ==> r.outcome == Batch(r.sent, authenticated, api)
  {
    match ProfitFilter(items, config.profitMarginThreshold)
    case None => FilterRaised
    case Some(filtered) =>
      var sent := Cap(filtered, config.maxDailyRegistrations);
      assert forall k :: 0 <= k < |sent| ==> sent[k] == filtered[k];
      Ran(sent, Batch(sent, authenticated, api))
  }

  /** A completed run never registers more records than the daily limit
      allows, and accounts for every record it was sent. */
  lemma CompletedRunWithinLimit(items: seq<RawItem>, config: Config, authenticated: bool, api: Api)
    requires config.maxDailyRegistrations >= 0
    requires RegisterAmazonProducts(items, config, authenticated, api).Ran?
    requires RegisterAmazonProducts(items, config, authenticated, api).outcome.Completed?
    ensures var res := RegisterAmazonProducts(items, config, authenticated, api).outcome.result;
      Accounted(res) && res.success <= res.total <= config.maxDailyRegistrations
  {
    var r := RegisterAmazonProducts(items, config, authenticated, api);
    var res := r.outcome.result;
    assert res == Tally(FieldsOf(r.sent), |r.sent|, api);
  }
}
