/** The upload sheet of the Smartstore uploader: the fixed column layout
    of a product row, and `create_upload_file`, which writes the rows under
    a one-line header with every text cell sanitised again. */
module Export {
  import opened Wrappers
  import opened Text
  import opened Sanitizer
  import opened Records
  import opened Assembly

  /** A sheet cell: text, or a whole number. */
  datatype Cell = TextCell(s: string) | NumberCell(n: int)

  /** Where an upload column takes its value from: a constant, or one of
      the listing's computed cells. */
  datatype Source =
    | Fixed(cell: Cell)
    | SellerCodeOf | CategoryCodeOf | TitleOf | PriceOf | LeafOf
    | DescriptionOf | BrandOf | ManufacturerOf | NoticeModelOf | SizeModelOf

  /** Upload columns: the product itself, its status flags and the leaf category. */
  const ProductColumns: seq<(string, Source)> := [
    ("판매자상품코드", SellerCodeOf),
    ("카테고리코드", CategoryCodeOf),
    ("상품명", TitleOf),
    ("상품상태", Fixed(TextCell("신상품"))),
    ("판매가", PriceOf),
    ("부가세", Fixed(TextCell("과세상품"))),
    ("재고수량", Fixed(NumberCell(999))),
    ("최종카테고리선택", LeafOf),
    ("구매평노출여부", Fixed(TextCell("Y"))),
    ("상품문의노출여부", Fixed(TextCell("Y"))),
    ("리뷰작성가능여부", Fixed(TextCell("Y"))),
    ("판매상태", Fixed(TextCell("판매중"))),
    ("전시상태", Fixed(TextCell("전시"))),
    ("성인인증", Fixed(TextCell("N"))),
    ("청소년이용불가", Fixed(TextCell("N")))
  ]

  /** Upload columns: options and add-on products, all empty. */
  const OptionColumns: seq<(string, Source)> := [
    ("옵션형태", Fixed(TextCell("단순상품"))),
    ("옵션명", Fixed(TextCell(""))),
    ("옵션값", Fixed(TextCell(""))),
    ("옵션가", Fixed(TextCell(""))),
    ("옵션재고수량", Fixed(TextCell(""))),
    ("직접입력옵션", Fixed(TextCell(""))),
    ("추가상품명", Fixed(TextCell(""))),
    ("추가상품값", Fixed(TextCell(""))),
    ("추가상품가", Fixed(TextCell(""))),
    ("추가상품재고수량", Fixed(TextCell("")))
  ]

  /** Upload columns: images, left empty, and the description. */
  const ImageColumns: seq<(string, Source)> := [
    ("대표이미지", Fixed(TextCell(""))),
    ("추가이미지", Fixed(TextCell(""))),
    ("상세설명", DescriptionOf)
  ]

  /** Upload columns: brand, maker, dates and origin. */
  const MakerColumns: seq<(string, Source)> := [
    ("브랜드", BrandOf),
    ("제조사", ManufacturerOf),
    ("제조일자", Fixed(TextCell("2024-01-01"))),
    ("유효일자", Fixed(TextCell("2030-12-31"))),
    ("원산지코드", Fixed(TextCell("US"))),
    ("수입사", Fixed(TextCell(""))),
    ("복수원산지여부", Fixed(TextCell("N"))),
    ("원산지직접입력", Fixed(TextCell("미국"))),
    ("미성년자구매여부", Fixed(TextCell("N"))),
    ("배송비템플릿코드", Fixed(TextCell("1")))
  ]

  /** Upload columns: delivery. */
  const DeliveryColumns: seq<(string, Source)> := [
    ("배송방법", Fixed(TextCell("택배"))),
    ("기본배송비", Fixed(NumberCell(3000))),
    ("배송비유형", Fixed(TextCell("유료"))),
    ("배송비결제방식", Fixed(TextCell("선결제"))),
    ("출고지", Fixed(TextCell("서울"))),
    ("배송업체", Fixed(TextCell("CJ대한통운"))),
    ("배송기간", Fixed(TextCell("1~3일"))),
    ("조건부무료상품판매가합계", Fixed(TextCell(""))),
    ("수량별부과수량", Fixed(TextCell(""))),
    ("구간별2구간수량", Fixed(TextCell(""))),
    ("구간별3구간수량", Fixed(TextCell(""))),
    ("구간별3구간배송비", Fixed(TextCell(""))),
    ("구간별추가배송비", Fixed(TextCell(""))),
    ("반품배송비", Fixed(TextCell(""))),
    ("교환배송비", Fixed(TextCell(""))),
    ("지역별차등배송비", Fixed(TextCell(""))),
    ("별도설치비", Fixed(TextCell("")))
  ]

  /** Upload columns: the product information notice. */
  const NoticeColumns: seq<(string, Source)> := [
    ("상품정보제공고시템플릿코드", Fixed(TextCell("50000169"))),
    ("상품정보제공고시품명", TitleOf),
    ("상품정보제공고시모델명", NoticeModelOf),
    ("상품정보제공고시인증허가사항", Fixed(TextCell("FDA 승인 시설에서 제조"))),
    ("상품정보제공고시제조자", ManufacturerOf),
    ("상품정보제공고시제조국", Fixed(TextCell("미국"))),
    ("상품정보제공고시사용기한", Fixed(TextCell("제품 표기 참조"))),
    ("상품정보제공고시사용법", Fixed(TextCell("제품 설명서 참조"))),
    ("상품정보제공고시주의사항", Fixed(TextCell("사용 전 패치테스트 권장")))
  ]

  /** Upload columns: after-sales service. */
  const ServiceColumns: seq<(string, Source)> := [
    ("AS템플릿코드", Fixed(TextCell("1"))),
    ("AS담당자명", Fixed(TextCell("고객센터"))),
    ("AS전화번호", Fixed(TextCell("010-2291-4080"))),
    ("AS안내", Fixed(TextCell("A/S 관련 문의는 판매자에게 연락바랍니다. 해외 직구 상품으로 A/S는 제한적입니다."))),
    ("판매자특이사항", Fixed(TextCell("해외 직구 상품입니다")))
  ]

  /** Upload columns: discounts and points, all empty. */
  const DiscountColumns: seq<(string, Source)> := [
    ("즉시할인값기본할인", Fixed(TextCell(""))),
    ("즉시할인단위기본할인", Fixed(TextCell(""))),
    ("모바일즉시할인값", Fixed(TextCell(""))),
    ("모바일즉시할인단위", Fixed(TextCell(""))),
    ("복수구매할인조건값", Fixed(TextCell(""))),
    ("복수구매할인조건단위", Fixed(TextCell(""))),
    ("복수구매할인값", Fixed(TextCell(""))),
    ("복수구매할인단위", Fixed(TextCell(""))),
    ("상품구매시포인트지급값", Fixed(TextCell(""))),
    ("상품구매시포인트지급단위", Fixed(TextCell(""))),
    ("텍스트리뷰작성시지급포인트", Fixed(TextCell(""))),
    ("포토동영상리뷰작성시지급포인트", Fixed(TextCell(""))),
    ("한달사용텍스트리뷰작성시지급포인트", Fixed(TextCell(""))),
    ("한달사용포토동영상리뷰작성시지급포인트", Fixed(TextCell("")))
  ]

  /** Upload columns: certifications, notice extras and sizes. */
  const OtherColumns: seq<(string, Source)> := [
    ("가전효율등급", Fixed(TextCell(""))),
    ("효율등급인증기관", Fixed(TextCell(""))),
    ("케어라벨인증유형", Fixed(TextCell(""))),
    ("상품정보제공고시색상", Fixed(TextCell("제품 참조"))),
    ("상품정보제공고시소재", Fixed(TextCell("화장품"))),
    ("상품정보제공고시사이즈", Fixed(TextCell("제품 상세 참조"))),
    ("상품정보제공고시동백사이즈", Fixed(TextCell(""))),
    ("상품정보제공고시동백노출", Fixed(TextCell(""))),
    ("상품정보제공고시수리방법", Fixed(TextCell(""))),
    ("사이즈상품군", Fixed(TextCell("일반"))),
    ("사이즈사이즈명", Fixed(TextCell("FREE"))),
    ("사이즈상세사이즈", Fixed(TextCell("제품 상세 참조"))),
    ("사이즈모델명", SizeModelOf)
  ]

  /** The upload columns in their fixed order, each with its source. The
      names are the uploader's column list; the sources are the row
      dictionary's values under the same keys, in the same order. */
  const Layout: seq<(string, Source)> :=
    ProductColumns + OptionColumns + ImageColumns + MakerColumns + DeliveryColumns
    + NoticeColumns + ServiceColumns + DiscountColumns + OtherColumns

  /** The names of a layout's columns, in order. */
  function Names(layout: seq<(string, Source)>): (r: seq<string>)
    ensures |r| == |layout|
    ensures forall j :: 0 <= j < |layout| ==> r[j] == layout[j].0
  {
    seq(|layout|, j requires 0 <= j < |layout| => layout[j].0)
  }

  /** The upload column names in order. */
  const UploadColumns: seq<string> := Names(Layout)

  /** The cell a source gives for a listing. */
  function Fill(source: Source, l: Listing): Cell {
    match source
    case Fixed(c) => c
    case SellerCodeOf => TextCell(l.sellerCode)
    case CategoryCodeOf => TextCell(l.categoryCode)
    case TitleOf => TextCell(l.title)
    case PriceOf => NumberCell(l.price)
    case LeafOf => TextCell(l.leafCategory)
    case DescriptionOf => TextCell(l.description)
    case BrandOf => TextCell(l.brand)
    case ManufacturerOf => TextCell(l.manufacturer)
    case NoticeModelOf => TextCell(l.noticeModelName)
    case SizeModelOf => TextCell(l.sizeModelName)
  }

  /** A cell that is a number, or text the sanitiser leaves alone. */
  predicate CleanCell(c: Cell) {
    c.TextCell? ==> IsClean(c.s)
  }

  /** A cell as the writer stores it: text passes through the sanitiser,
      numbers are stored as they are. */
  function Written(c: Cell): (r: Cell)
    ensures CleanCell(r)
    ensures r.TextCell? <==> c.TextCell?
    ensures c.NumberCell? ==> r == c
    ensures c.TextCell? ==> r == TextCell(CleanTextForExcel(c.s))
    ensures CleanCell(c) ==> r == c
  {
    match c
    case TextCell(s) =>
      assert IsClean(s) ==> CleanTextForExcel(s) == s by {
        if IsClean(s) {
          CleanTextFixesClean(s);
        }
      }
      TextCell(CleanTextForExcel(s))
    case NumberCell(n) => c
  }

  /** The cells written for one listing, in column order. */
  function UploadRow(l: Listing): (r: seq<Cell>)
    ensures |r| == |UploadColumns|
    ensures forall j :: 0 <= j < |r| ==> CleanCell(r[j])
    ensures forall j :: 0 <= j < |r| && Layout[j].1.Fixed? ==> r[j] == Written(Layout[j].1.cell)
    ensures forall j :: 0 <= j < |r| && CleanCell(Fill(Layout[j].1, l)) ==> r[j] == Fill(Layout[j].1, l)
  {
    seq(|Layout|, j requires 0 <= j < |Layout| => Written(Fill(Layout[j].1, l)))
  }

  /** Where the fixed defaults sit in the layout: a new product, taxable,
      999 in stock, a simple product without options, and a 3000 won
      delivery fee. */
  lemma DefaultsInLayout()
    ensures Layout[3] == ("상품상태", Fixed(TextCell("신상품")))
    ensures Layout[5] == ("부가세", Fixed(TextCell("과세상품")))
    ensures Layout[6] == ("재고수량", Fixed(NumberCell(999)))
    ensures Layout[15] == ("옵션형태", Fixed(TextCell("단순상품")))
    ensures Layout[39] == ("기본배송비", Fixed(NumberCell(3000)))
  {
  }

  /** Text without whitespace and without a character the sanitiser
      removes is left alone by it. */
  lemma WordIsClean(s: string)
    requires forall i :: 0 <= i < |s| ==> !IsSpace(s[i]) && !Removed(s[i])
    ensures IsClean(s)
  {
  }

  /** The text defaults are left alone by the sanitiser. */
  lemma DefaultsClean()
    ensures IsClean("신상품") && IsClean("과세상품") && IsClean("단순상품")
  {
    WordIsClean("신상품");
    WordIsClean("과세상품");
    WordIsClean("단순상품");
  }

  /** Where the title, price, description and brand sit in the layout. */
  lemma FieldsInLayout()
    ensures Layout[2] == ("상품명", TitleOf)
    ensures Layout[4] == ("판매가", PriceOf)
    ensures Layout[27] == ("상세설명", DescriptionOf)
    ensures Layout[28] == ("브랜드", BrandOf)
    ensures Layout[56] == ("상품정보제공고시품명", TitleOf)
  {
  }

  /** Every row holds the layout's clean constants as they are. */
  lemma FixedDefaults(l: Listing)
    ensures forall j :: 0 <= j < |Layout| && Layout[j].1.Fixed? && CleanCell(Layout[j].1.cell) ==>
      UploadRow(l)[j] == Layout[j].1.cell
  {
  }

  /** The title, price, description and brand cells of a listing whose
      texts are clean need no cleaning. */
  lemma CleanSource(source: Source, l: Listing)
    requires IsClean(l.title) && IsClean(l.brand) && IsClean(l.description)
    requires source.TitleOf? || source.PriceOf? || source.DescriptionOf? || source.BrandOf?
    ensures CleanCell(Fill(source, l))
  {
  }

  /** A listing whose title, brand and description are clean reaches the
      sheet with those cells and its price unchanged. */
  lemma CleanCellsUnchanged(l: Listing)
    requires IsClean(l.title) && IsClean(l.brand) && IsClean(l.description)
    ensures forall j :: 0 <= j < |Layout| && Layout[j].1 in {TitleOf, PriceOf, DescriptionOf, BrandOf} ==>
      UploadRow(l)[j] == Fill(Layout[j].1, l)
  {
    var r := UploadRow(l);
    forall j | 0 <= j < |Layout| && Layout[j].1 in {TitleOf, PriceOf, DescriptionOf, BrandOf}
      ensures r[j] == Fill(Layout[j].1, l)
    {
      CleanSource(Layout[j].1, l);
    }
  }

  /** The computed cells of an assembled listing reach the sheet
      unchanged: the writer's second pass of the sanitiser finds nothing
      left to clean in the title, description and brand. */
  lemma AssembledCellsUnchanged(item: RawItem, i: nat, env: Env)
    requires AssembleItem(item, i, env).Success?
    ensures var l := AssembleItem(item, i, env).value;
      forall j :: 0 <= j < |Layout| && Layout[j].1 in {TitleOf, PriceOf, DescriptionOf, BrandOf} ==>
        UploadRow(l)[j] == Fill(Layout[j].1, l)
  {
    CleanCellsUnchanged(AssembleItem(item, i, env).value);
  }

  /** `header.replace('\r\n', '')`: drops each carriage-return line-feed
      pair, scanning left to right. */
  function DropCrLf(s: string): (r: string)
    ensures |r| <= |s|
    ensures '\n' !in s ==> r == s
    decreases |s|
  {
    if |s| >= 2 && s[0] == '\r' && s[1] == '\n' then DropCrLf(s[2..])
    else if s == [] then []
    else [s[0]] + DropCrLf(s[1..])
  }

  /** A header name as written: line breaks removed. */
  function SingleLine(h: string): (r: string)
    ensures '\n' !in r
    ensures |r| <= |h|
    ensures '\n' !in h ==> r == h
  {
    var noPairs := DropCrLf(h);
    var r := Delete(noPairs, '\n');
    assert '\n' !in h ==> r == h by {
      if '\n' !in h {
        DeleteAbsent(h, '\n');
      }
    }
    r
  }

  /** Deleting a character that does not occur changes nothing. */
  lemma {:induction false} DeleteAbsent(s: string, c: char)
    requires c !in s
    ensures Delete(s, c) == s
    decreases |s|
  {
    if s != [] {
      assert c !in s[1..];
      DeleteAbsent(s[1..], c);
    }
  }

  /** The upload sheet. */
  datatype Sheet = Sheet(name: string, header: seq<string>, rows: seq<seq<Cell>>)

  /** The file name used when none is given. */
  function DefaultPath(timestamp: string): string {
    "smartstore_upload_" + timestamp + ".xlsx"
  }

  /** `create_upload_file`: nothing is written for an empty frame;
      otherwise the sheet `일괄등록` gets the upload columns as a one-line
      header and one row per listing, in order. The timestamp of the
      default file name is a parameter. */
  function CreateUploadFile(listings: seq<Listing>, outputPath: Option<string>, timestamp: string): (r: Option<(string, Sheet)>)
    ensures r.None? <==> listings == []
    ensures r.Some? ==>
      var (path, sheet) := r.value;
      && path == (if outputPath.Some? then outputPath.value else DefaultPath(timestamp))
      && sheet.name == "일괄등록"
      && |sheet.header| == |UploadColumns|
      && (forall j :: 0 <= j < |UploadColumns| ==> sheet.header[j] == SingleLine(UploadColumns[j]))
      && |sheet.rows| == |listings|
      && (forall k :: 0 <= k < |listings| ==> sheet.rows[k] == UploadRow(listings[k]))
  {
    if listings == [] then None
    else
      var path := if outputPath.Some? then outputPath.value else DefaultPath(timestamp);
      var header := seq(|UploadColumns|, j requires 0 <= j < |UploadColumns| => SingleLine(UploadColumns[j]));
      var rows := seq(|listings|, k requires 0 <= k < |listings| => UploadRow(listings[k]));
      Some((path, Sheet("일괄등록", header, rows)))
  }

  /** No column name of `layout` holds a line feed. */
  predicate SingleLineNames(layout: seq<(string, Source)>) {
    forall j :: 0 <= j < |layout| ==> '\n' !in layout[j].0
  }

  /** The names of each column group are single-line; checked group by
      group. */
  lemma ProductColumnsSingleLine()
    ensures SingleLineNames(ProductColumns)
  {
  }

  lemma OptionColumnsSingleLine()
    ensures SingleLineNames(OptionColumns)
  {
  }

  lemma ImageColumnsSingleLine()
    ensures SingleLineNames(ImageColumns)
  {
  }

  lemma MakerColumnsSingleLine()
    ensures SingleLineNames(MakerColumns)
  {
  }

  lemma DeliveryColumnsSingleLine()
    ensures SingleLineNames(DeliveryColumns)
  {
  }

  lemma NoticeColumnsSingleLine()
    ensures SingleLineNames(NoticeColumns)
  {
  }

  lemma ServiceColumnsSingleLine()
    ensures SingleLineNames(ServiceColumns)
  {
  }

  lemma DiscountColumnsSingleLine()
    ensures SingleLineNames(DiscountColumns)
  {
  }

  lemma OtherColumnsSingleLine()
    ensures SingleLineNames(OtherColumns)
  {
  }


  /** A layout of single-line names joined to another stays single-line. */
  lemma SingleLineJoin(a: seq<(string, Source)>, b: seq<(string, Source)>)
    requires SingleLineNames(a) && SingleLineNames(b)
    ensures SingleLineNames(a + b)
  {
    forall j | 0 <= j < |a + b|
      ensures '\n' !in (a + b)[j].0
    {
      if j >= |a| {
        assert (a + b)[j] == b[j - |a|];
      }
    }
  }

  /** No upload column name holds a line feed. */
  lemma ColumnsSingleLine()
    ensures forall j :: 0 <= j < |UploadColumns| ==> '\n' !in UploadColumns[j]
  {
    ProductColumnsSingleLine();
    OptionColumnsSingleLine();
    ImageColumnsSingleLine();
    MakerColumnsSingleLine();
    DeliveryColumnsSingleLine();
    NoticeColumnsSingleLine();
    ServiceColumnsSingleLine();
    DiscountColumnsSingleLine();
    OtherColumnsSingleLine();
    SingleLineJoin(ProductColumns, OptionColumns);
    SingleLineJoin(ProductColumns + OptionColumns, ImageColumns);
    SingleLineJoin(ProductColumns + OptionColumns + ImageColumns, MakerColumns);
    SingleLineJoin(ProductColumns + OptionColumns + ImageColumns + MakerColumns, DeliveryColumns);
    SingleLineJoin(ProductColumns + OptionColumns + ImageColumns + MakerColumns + DeliveryColumns, NoticeColumns);
    SingleLineJoin(ProductColumns + OptionColumns + ImageColumns + MakerColumns + DeliveryColumns
      + NoticeColumns, ServiceColumns);
    SingleLineJoin(ProductColumns + OptionColumns + ImageColumns + MakerColumns + DeliveryColumns
      + NoticeColumns + ServiceColumns, DiscountColumns);
    SingleLineJoin(ProductColumns + OptionColumns + ImageColumns + MakerColumns + DeliveryColumns
      + NoticeColumns + ServiceColumns + DiscountColumns, OtherColumns);
  }

  /** The written header is exactly the upload column list. */
  lemma HeaderIsUploadColumns(listings: seq<Listing>, outputPath: Option<string>, timestamp: string)
    requires listings != []
    ensures CreateUploadFile(listings, outputPath, timestamp).value.1.header == UploadColumns
  {
    ColumnsSingleLine();
  }

  /** Why exporting loaded records gives no file. */
  datatype ExportFailure =
    | NoRecords         // nothing was loaded: the source raises
    | NothingConverted  // every record was skipped: the source returns None

  /** `convert_file` after loading: an empty load is an error; otherwise
      the records are converted and the upload file is created from the
      rows, which fails exactly when no record was accepted. */
  function ExportRecords(items: seq<RawItem>, env: Env, outputPath: Option<string>, timestamp: string): (r: Result<(string, Sheet), ExportFailure>)
    ensures items == [] ==> r == Failure(NoRecords)
    ensures items != [] ==> (r == Failure(NothingConverted) <==> forall j :: 0 <= j < |items| ==> !Accepted(items[j]))
    ensures r.Success? ==> 0 < |r.value.1.rows| <= |items|
  {
    if items == [] then Failure(NoRecords)
    else
      var rows := ConvertToUploadFormat(items, env).rows;
      ConvertedNone(items, env);
      match CreateUploadFile(rows, outputPath, timestamp)
      case None => Failure(NothingConverted)
      case Some(file) => Success(file)
  }
}
