# Amazon-to-Smartstore automation, modelled in Dafny

This project models the core of a tool that moves crawled Amazon products onto
a Naver Smartstore shop. It proves properties of that model. There are two
paths to the shop.

- **The bulk-upload sheet** (`smartstore_uploader.py`):
  - each crawled record becomes one row of a 96-column Excel sheet;
  - the title is cleaned, split into brand and name, and optionally translated;
  - the dollar price becomes a won price (exchange rate 1350, markup 1.6,
    rounding to 800 won, floor of 1000 won);
  - a keyword classifier picks the category code;
  - every text is sanitised for Excel.
- **The Commerce API client** (`naver_smartstore_api.py`):
  - requests are signed over `timestamp.method.uri[.body]`;
  - headers are built per request;
  - a record is converted to a product (1350 won per dollar, 35% markup, 5%
    discount, Python `int` truncation);
  - images are uploaded one by one, skipping failures;
  - a batch is registered with success and failure accounting;
  - the registration manager applies a profit-margin filter and a daily cap.

The desktop tool (`amazon_smartstore_integrated.py`) contributes:
- its settings validation;
- the edits of the search-keyword list;
- the two-step workflow status;
- the keyword list that follows the category checkboxes.

Modules, one per concern:

| module | file | what |
|---|---|---|
| `Wrappers` | wrappers.dfy | `Option`, `Result`, `Outcome` |
| `Text` | text.dfy | Python `str.isspace`, `strip`, `re.sub(r'\s+', ' ', …)`, `split`/`join`, `in`, slicing with `"..."`, `lower`, `%04d`, digit parsing |
| `Records` | records.dfy | a crawled record as a dictionary of dynamically typed values; Python truthiness; `dict.get` |
| `Sanitizer` | sanitizer.dfy | `clean_text_for_excel` |
| `Titles` | titles.dfy | `clean_and_translate_title` |
| `Pricing` | pricing.dfy | `calculate_korean_price` |
| `Categories` | categories.dfy | `get_category_code` |
| `Assembly` | assembly.dfy | `convert_to_smartstore_upload_format`: one row or one skip reason per record |
| `Export` | export.dfy | the 96-column layout and `create_upload_file` |
| `Signing` | signing.dfy | `_generate_signature`, `_get_headers` |
| `Publisher` | publisher.dfy | conversion, image upload, batch registration, the registration manager |
| `Settings` | settings.dfy | validation, keyword edits, workflow status, category selection |

Python floats are exact reals here. Text is a sequence of Unicode scalar values.

Everything the code calls but does not define is a function-typed parameter:
- the translator;
- `float()` and `int()` on text;
- HMAC-SHA256 with base64;
- the image upload and product submission calls;
- the category keyword mixer.

A Python exception is an `Option`/`Result`/`Outcome` value, never a precondition.

## Model

| member | source | states |
|---|---|---|
| `Sanitizer.CleanTextForExcel` | smartstore_uploader.py:102-130 | Empty stays empty. The result is no longer than the input, has no emoji, astral, dingbat, trademark or control character and no doubled or edge whitespace. Its words, as Python `split()` gives them, are exactly the words of the text left after the deletions, in order |
| `Sanitizer.CleanTextIsJoinOfWords` | smartstore_uploader.py:102-130 | The sanitiser is `' '.join(t.split())` of the text `t` left after the deletions |
| `Sanitizer.CleanTextIdempotent` | smartstore_uploader.py:102-130 | Cleaning an already cleaned text changes nothing |
| `Sanitizer.CleanTextFixesClean` | smartstore_uploader.py:102-130 | Text that is already clean (collapsed spacing, nothing removable) comes back unchanged |
| `Sanitizer.RemoveSymbols` | smartstore_uploader.py:107-125 | The deletions never lengthen the text. Every kept character is outside the removed classes and comes from the input, and every input character outside them is kept |
| `Sanitizer.RemoveSymbolsAppend` | smartstore_uploader.py:107-125 | The deletions act on each character alone: deleting from `a + b` gives the result for `a` followed by the result for `b`, so kept characters keep their order and their count |
| `Sanitizer.RemoveSymbolsChar` | smartstore_uploader.py:107-125 | A single character is dropped exactly when one of the removed classes (astral, emoji block, dingbat, variation selector, ™ ® © ℠, control) contains it |
| `Titles.CleanTitle` | smartstore_uploader.py:134-136 | No longer than the title. The result has single spaces and none at either end, holds no ™, ® or ©, and its words are exactly the words of the title with those three glyphs deleted, in order |
| `Titles.RemoveTitleGlyphsAppend` | smartstore_uploader.py:135 | The glyph deletion acts on each character alone: deleting from `a + b` gives the result for `a` followed by the result for `b` |
| `Titles.RemoveTitleGlyphsChar` | smartstore_uploader.py:135 | A single character is dropped exactly when it is ™, ® or © |
| `Text.CollapseIsJoinOfWords` | smartstore_uploader.py:136 | `re.sub(r'\s+', ' ', s).strip()` equals `' '.join(s.split())` |
| `Titles.SplitBrandRoundTrip` | smartstore_uploader.py:138-147 | A brand is taken exactly when the first word of the cleaned title does not reach its end, is longer than two characters and starts upper-case. The brand is then that first word and holds no whitespace, and brand, one space and a non-empty product name rebuild the cleaned title. Without a brand the product name is the whole cleaned title |
| `Titles.CleanAndTranslateTitle` | smartstore_uploader.py:132-180 | With a translation: the name is the translation and the final title is brand plus translation, cut to 97 characters plus "..." when over 100. Without one: the final title is the whole cleaned title, uncut, and only the product name is cut |
| `Pricing.KoreanPrice` | smartstore_uploader.py:182-207 | 0 exactly for an unparsable or non-positive price. Otherwise at least 1000 won. A converted amount that is not whole hundreds becomes the nearest multiple of 800 (ties to even), within 400 won. Whole hundreds are kept as they are |
| `Pricing.PriceNotMonotone` | smartstore_uploader.py:196-198 | Because whole hundreds skip the 800-won rounding, a dearer item can list cheaper: 7.50 dollars lists at 16 200 won, 7.51 dollars at 16 000 won |
| `Pricing.RoundHalfEven` | smartstore_uploader.py:198 | Python `round`: within one half of the argument, and an exact tie goes to the even neighbour |
| `Categories.GetCategoryCode` | smartstore_uploader.py:209-231 | Always a known code. The five title rules win in their fixed order on the lower-cased title. Failing them, the first table keyword found in the title or the hint wins. Failing that, the default 50000169 |
| `Categories.SerumTitleIsSerum` | smartstore_uploader.py:215-216 | A title containing "serum" is always filed under essence/serum, whatever the hint |
| `Categories.HintIgnoredOnTitleHit` | smartstore_uploader.py:215-225 | When a title rule fires, the category hint cannot change the result |
| `Categories.FirstKeywordHit` | smartstore_uploader.py:227-229 | The keyword scan returns the first table entry, in insertion order, found in the title or the hint, or reports that none occurs |
| `Assembly.MissingFields` | smartstore_uploader.py:252-253 | Lists exactly the required fields (title, price_usd) that are absent or falsy |
| `Assembly.SellerCodeRoundTrip` | smartstore_uploader.py:308 | `AMZ_` plus the zero-padded position reads back to that position, so distinct records never share a seller code |
| `Assembly.RawDescription` | smartstore_uploader.py:261-291 | No translator gives an empty description. A translator failure gives the generic boilerplate, uncut. A translation under 50 non-edge characters is replaced by the boilerplate the title calls for. The result is cut at 32 700 characters |
| `Assembly.AssembleItem` | smartstore_uploader.py:244-436 | A record becomes a row exactly when it is a dictionary with a truthy title and price, a string title and a usable hint. Non-dictionaries and missing fields give their own skip reasons. The row's seller code is `AMZ_` plus the zero-padded position, its price is the won price of `price_usd`, its title and brand are the sanitised final title and brand of the record's title, its category is the classifier's code for the final title and hint, and its description is the sanitised description. Leaf category, manufacturer, notice and size model names and the reference copy are derived from those as the source writes them. Hence the seller code reads back to the position, the texts are clean, and the category is known |
| `Assembly.ConvertToUploadFormat` | smartstore_uploader.py:233-450 | Every record yields exactly one row or one skip. Row positions and skip positions each strictly increase, so no record is listed twice. Rows are in input order, and each is the successful result at its position |
| `Assembly.ConvertedAccepted` | smartstore_uploader.py:244-436 | Every accepted record's row appears in the output |
| `Assembly.ConvertedSkips` | smartstore_uploader.py:244-443 | Every skip names a record that was not accepted, with the reason that record gives |
| `Assembly.ConvertedNone` | smartstore_uploader.py:446-448 | The conversion yields no rows exactly when no record is accepted |
| `Export.UploadRow` | smartstore_uploader.py:306-424 | A row has one cell per upload column. Every cell is sanitised. Constant cells are the source's defaults, and computed cells are the listing's values when those are already clean |
| `Export.Written` | smartstore_uploader.py:548-553 | A written cell is clean and of the same kind. Text cells hold the sanitiser's output for their text, number cells are stored unchanged, and a cell that is already clean is stored as it is |
| `Export.DefaultsInLayout` | smartstore_uploader.py:311-359 | Condition 신상품, tax 과세상품, stock 999, option form 단순상품 and base shipping 3000 sit in their columns |
| `Export.FieldsInLayout` | smartstore_uploader.py:308-378 | Title, price, description, brand and the notice item name fill the right columns |
| `Export.AssembledCellsUnchanged` | smartstore_uploader.py:294-296 | The title, price, description and brand cells of an assembled record are written exactly as assembled, because assembly already sanitised them |
| `Export.SingleLine` | smartstore_uploader.py:540 | Header cleaning leaves no line feed and changes a header without one not at all |
| `Export.ColumnsSingleLine` | smartstore_uploader.py:492-519 | None of the 96 column names contains a line feed |
| `Export.HeaderIsUploadColumns` | smartstore_uploader.py:537-541 | The written header row is exactly the upload column list |
| `Export.CreateUploadFile` | smartstore_uploader.py:476-569 | Nothing is written for no rows. Otherwise the path is the given one or `smartstore_upload_<timestamp>.xlsx`, the sheet is 일괄등록, the header is the cleaned column names, and row k is listing k's cells |
| `Export.ExportRecords` | smartstore_uploader.py:233-569 | No records fails as such. Otherwise the export fails for "nothing converted" exactly when no record is accepted, and a written sheet has between 1 and as many rows as there were records |
| `Signing.SigningRoundTrip` | naver_smartstore_api.py:82-87 | With dot-free timestamp, method and URI, the message determines the request it signs, body included |
| `Signing.DottedUriIsAmbiguous` | naver_smartstore_api.py:82-87 | A dotted URI with an empty body is signed exactly like a shorter URI with a body |
| `Signing.Headers` | naver_smartstore_api.py:98-114 | Exactly the five base headers, plus Authorization exactly when a non-empty token is held. The timestamp reads back as the millisecond clock, and the signature is the MAC of that timestamp's message under the secret |
| `Publisher.Trunc` | naver_smartstore_api.py:209-213 | Python `int()` on a float truncates toward zero |
| `Publisher.Repeat` | naver_smartstore_api.py:209 | Python's `s * n` on a string: the result is as long as `n` copies of `s`, starts with `s` when `n > 0`, and repeats with the length of `s` as its period, which fixes every character |
| `Publisher.PriceKrw` | naver_smartstore_api.py:209 | An absent key raises. An int is multiplied by 1350. A float is multiplied and truncated toward zero, so a non-negative product lands at most one won above the result; a float product beyond the float range raises OverflowError. A string is repeated 1350 times and then parsed by `int()`, which may raise. A list or None raises |
| `Publisher.PricesOrdered` | naver_smartstore_api.py:212-213 | For a non-negative won price: price ≤ selling price, and 0 ≤ discount price ≤ selling price |
| `Publisher.NegativePriceDiscountAbove` | naver_smartstore_api.py:212-213 | A negative won price gives a discount price above the selling price |
| `Publisher.CategoryOf` | naver_smartstore_api.py:59-70 | A mapped category string gives its code. Anything else gives 50002617, except an unhashable value, which raises |
| `Publisher.MarkUp` | naver_smartstore_api.py:212 | Fails with OverflowError exactly when 1.35 times the won price is beyond the float range. Otherwise it gives the truncated markup, which stays in range and is not below a non-negative price |
| `Publisher.HugePriceRejected` | naver_smartstore_api.py:209-212 | A won price that `int()` accepted but that is at least the float limit fails the record with OverflowError, and the record is not registered. The 2700-digit number that a text price "20" repeats into is one |
| `Publisher.ConvertAmazonToNaver` | naver_smartstore_api.py:204-263 | Errors come in the source's order: price, then the markup's OverflowError, then category, then title. On success: the prices are 1.35× and then 0.95× the won price, truncated, and within the float range; the name is `[brand] ` plus the first 80 characters of the title; one image; shipping 3000 |
| `Publisher.UploadedAll` | naver_smartstore_api.py:268-274 | At most one uploaded URL per image, none empty, each the upload answer of a truthy image URL |
| `Publisher.UploadedAllAppend` | naver_smartstore_api.py:268-274 | The images of `a + b` are those of `a` followed by those of `b`: the uploaded list keeps input order and one entry per successful upload |
| `Publisher.UploadedAllOne` | naver_smartstore_api.py:270-274 | A single image contributes its upload answer when the URL is truthy and the answer non-empty, and nothing otherwise |
| `Publisher.UploadedKeepsSuccesses` | naver_smartstore_api.py:268-274 | Every truthy image whose upload answers a non-empty URL is kept: a failed image drops only itself |
| `Publisher.UploadImages` | naver_smartstore_api.py:268-274 | The image loop computes exactly the uploaded list |
| `Publisher.ProcessItem` | naver_smartstore_api.py:354-383 | A record is a success exactly when its title can be sliced, it converts, and registration returns a truthy id. The success entry holds the product name, id and price. A failure entry holds the record's title |
| `Publisher.Record` | naver_smartstore_api.py:367-383 | Each record moves exactly one counter by one and appends to exactly that counter's list |
| `Publisher.Tally` | naver_smartstore_api.py:345-383 | success + failed equals the number of records processed, and each list is as long as its counter |
| `Publisher.TallyPrefix` | naver_smartstore_api.py:353-383 | Results only grow: a prefix's success and failure lists are prefixes of the whole batch's |
| `Publisher.BatchRegisterProducts` | naver_smartstore_api.py:339-393 | Failed authentication touches nothing. A non-dictionary record aborts the batch with an error. Otherwise the loop's results are the tally of all records, with total = success + failed = the number of records |
| `Publisher.ProfitFilter` | naver_smartstore_api.py:456-459 | Fails exactly when some record cannot be compared. Otherwise it keeps each record whose margin (default 0) reaches the threshold, and only those |
| `Publisher.ProfitFilterAppend` | naver_smartstore_api.py:456-459 | Filtering `a + b` is filtering `a`, then `b`, and joining the results; it raises when either part does. So passing records keep their input order and multiplicity |
| `Publisher.ProfitFilterOne` | naver_smartstore_api.py:456-459 | A single record raises when its margin cannot be compared, passes when the margin reaches the threshold, and is dropped otherwise |
| `Publisher.Cap` | naver_smartstore_api.py:464-466 | The result is a prefix of the input. For a non-negative limit it has at most that many items and is the whole input when that fits. A negative limit drops that many items from the end |
| `Publisher.RegisterAmazonProducts` | naver_smartstore_api.py:450-479 | Fails exactly when the filter raises. Otherwise the records sent are the filter's passing records in input order, cut to the daily limit as `[:max]` cuts. So only profitable input records are sent, never more than a non-negative limit, and all of them when the limit covers the input. They are then batch-registered |
| `Publisher.CompletedRunWithinLimit` | naver_smartstore_api.py:450-470 | A completed run accounts for every record it sent, and registers no more than the daily limit |
| `Settings.CheckCrawl` | amazon_smartstore_integrated.py:1072-1081 | Passes exactly when all five crawl bounds hold. Otherwise the first violated check in source order names the error |
| `Settings.ValidateCrawlingSettings` | amazon_smartstore_integrated.py:1064-1086 | Passes exactly when every field parses and is in range. An `int()` failure on products per keyword gets the "must be a number" message only when that text contains "could not convert", and otherwise surfaces as `int()`'s own error. A raw `int()` error never names the rating, which `float()` parses. Fields are parsed in the source's order, so the error comes from the first that fails: products per keyword, then crawl delay, then rating, then review count |
| `Settings.ValidateCrawlingSettingsIntended` | amazon_smartstore_integrated.py:1083-1085 | Same acceptance, but every unparsable field gets the tool's "must be a number" message, and that message names the first field, in parse order, that does not parse |
| `Settings.NonNumericCountKeepsRawError` | amazon_smartstore_integrated.py:1064-1086 | For products per keyword "abc", the validation as written reports `int()`'s own error; the corrected one reports the tool's message |
| `Settings.ValidateSmartstoreSettings` | amazon_smartstore_integrated.py:1088-1098 | Passes exactly for an integer margin from 10 to 200, and an out-of-range integer gets the range message. Unparsable text gets `int()`'s own error, except text containing "could not convert", which alone gets the margin's "must be a number" message |
| `Settings.IntFailure` | amazon_smartstore_integrated.py:1083-1085 | The handler's test on an `int()` failure: the tool's message replaces the error exactly when the rejected text contains "could not convert", since `int()`'s message quotes that text; otherwise the raw error carries the text |
| `Settings.ValidateSmartstoreSettingsIntended` | amazon_smartstore_integrated.py:1095-1097 | Same acceptance, but an unparsable margin gets the margin's "must be a number" message |
| `Settings.NonNumericMarginKeepsRawError` | amazon_smartstore_integrated.py:1088-1098 | For margin rate "abc", the validation as written reports `int()`'s own error; the corrected one reports the margin message |
| `Settings.ConversionMarginCheck` | amazon_smartstore_integrated.py:703-709 | The conversion-only run accepts exactly the margins from 10 to 200. Any unparsable text shows `int()`'s own error, and an out-of-range integer the range message |
| `Settings.ConversionCheckMatchesValidation` | amazon_smartstore_integrated.py:703-709 | The conversion-only run and the validation accept the same margins, and refuse with the same error unless the text contains "could not convert" |
| `Settings.ConvertPhraseSplitsChecks` | amazon_smartstore_integrated.py:1095-1097 | For margin text "could not convert" the two checks differ: the validation gives the margin's "must be a number" message, the conversion-only run `int()`'s own error |
| `Settings.AddKeyword` | amazon_smartstore_integrated.py:535-540 | A non-blank answer is appended stripped. A cancelled or blank answer changes nothing |
| `Settings.RemoveKeyword` | amazon_smartstore_integrated.py:542-549 | A selected row inside the list is removed. The rest keep their order and the multiset loses exactly that keyword. No selection, or a row past the end, changes nothing |
| `Settings.EditKeyword` | amazon_smartstore_integrated.py:551-561 | A non-blank answer replaces only the selected row, stripped, and the length is kept. A selected row past the end raises, since there is no bounds check |
| `Settings.AddThenRemove` | amazon_smartstore_integrated.py:535-549 | Adding a keyword and removing the row it landed in restores the list |
| `Settings.Icon` | amazon_smartstore_integrated.py:911-916 | Exactly the four statuses pending, running, completed and failed have an icon |
| `Settings.UpdateWorkflowStep` | amazon_smartstore_integrated.py:909-923 | Step 1 sets only the crawl status, step 2 only the conversion status, and any other step changes nothing |
| `Settings.InitialStatusKnown` | amazon_smartstore_integrated.py:122-125 | Both steps start pending, a status the icon table has |
| `Settings.UpdateKeepsKnown` | amazon_smartstore_integrated.py:909-923 | Updating with a status the icon table has keeps both statuses ones it has |
| `Settings.Checked` | amazon_smartstore_integrated.py:566-570 | The selection holds only checked ids and every checked id, and is empty exactly when nothing is checked |
| `Settings.CheckedAppend` | amazon_smartstore_integrated.py:566-570 | The selection of `a + b` is that of `a` followed by that of `b`: ids keep checkbox order and multiplicity |
| `Settings.CheckedOne` | amazon_smartstore_integrated.py:566-570 | A single checkbox contributes its id exactly when it is checked |
| `Settings.OnCategorySelectionChanged` | amazon_smartstore_integrated.py:564-578 | An empty selection empties the keyword list. Otherwise the list is the mixer's keywords for the selection |

## Left out

- File and network I/O:
  - reading the crawl file, and `convert_file`;
  - writing the workbook with openpyxl (fonts, fills, column widths);
  - `_create_reference_file`;
  - the HTTP calls of `authenticate`, `upload_image` and `register_product`;
  - `_save_registration_results`;
  - the manager's configuration file.
- Calls into code not shown here become parameters:
  - the translator;
  - HMAC-SHA256 with base64;
  - `float()` and `int()` on text;
  - the category manager's keyword mix;
  - image upload and product submission.
- Time: `time.time()`, `datetime.now()` and `asyncio.sleep` are left out. The clock readings are parameters. The 2-second pause between registrations is not modelled. In the source it happens only after a record that did not raise.
- The widget toolkit, message boxes, threads and log windows of the desktop tool. Its dialog answers and list selections are parameters.
- The contents of the API product request (the JSON body of `register_product`). Registration is the submission parameter applied to the product and its uploaded images.
- `Publisher.ConvertAmazonToNaver`: does not model the description. The description is the f-string at lines 225-248 of naver_smartstore_api.py, and here it is an opaque function of the record, because it formats floats and nested values that this model does not render.
- `Assembly.RawDescription`: states that the boilerplate starts with the product name, not its exact wording.
- `Publisher.PriceKrw`: floats are exact reals, so binary rounding of `price_usd * 1350` and of the 1.35 and 0.95 factors is not modelled; `Pricing.KoreanPrice` has the same limitation. The OverflowError at lines 209 and 212 of naver_smartstore_api.py is decided on the exact product against 2^1024 - 2^970, so a product within rounding distance of that limit may fall on the other side of it than in Python.
- `Pricing.KoreanPrice`: does not model overflow. A price whose won amount overflows to infinity (text such as "1e400" or "inf", or an integer above about 1.8e308) makes `round()` raise OverflowError at smartstore_uploader.py:198. The handler at line 205 does not catch it, so the per-record handler at lines 436-440 skips the record. Here reals do not overflow, and the record gets a price. Nor does it model every Python value: a value here is text, an int, a float, a list or None. Python booleans and nested dictionaries are not modelled. In the source `True * 1350` is 1350, and a dictionary category raises as unhashable in `CategoryOf`.
- `Settings.ValidateCrawlingSettings`: `float()` accepting `nan` and `inf` is not modelled.
- `Settings.ValidateSmartstoreSettings`: `int()`'s message is taken to contain "could not convert" exactly when the rejected text does. CPython writes the text with `repr` and cuts it at 200 characters, so escaped or very long texts are not modelled. The same holds for `Settings.IntFailure`, `Settings.ValidateCrawlingSettings` and `Settings.ConversionCheckMatchesValidation`.
- `Settings.ConversionMarginCheck`: its `int()` error is represented by the rejected text, not by CPython's exact wording, which quotes that text with `repr` and cuts it at 200 characters.
- `Publisher.RegisterAmazonProducts`: the threshold and the daily limit are taken to be numbers. Other configuration values would raise in the comparison.
- `Text.ToLower`: lower-cases ASCII and Latin-1 letters only. Python also lower-cases some other characters into ASCII: the Kelvin sign U+212A becomes "k", and U+0130 becomes "i" plus a combining dot. A title holding them can match a classifier keyword in the source and not here.
- The brand split's upper-case test covers the same letters. The keywords the classifier tests are ASCII or Hangul, which have no case.
- The git and Slack collaboration script is not part of this model.

Where the code and its documentation disagree, the model follows the code:
- when the title is not translated, the final title is the cleaned title and is not cut to 100 characters;
- a record whose price is unparsable or not positive is not skipped: it gets the price 0;
- `edit_keyword` has no bounds check;
- a negative daily limit cuts items from the end of the list instead of registering none.

## Findings

| source | as written | input that shows it | evidently intended | confidence | as-written member | corrected member |
|---|---|---|---|---|---|---|
| amazon_smartstore_integrated.py:1083-1085 | The handler swaps in "모든 설정값은 숫자여야 합니다." only for errors whose text contains "could not convert". That is `float()`'s wording; `int()` says "invalid literal for int() with base 10" | products per keyword = "abc": `int("abc")` raises, and its own message reaches the caller | every non-numeric setting reports the tool's "must be a number" message | high; not executed | `Settings.ValidateCrawlingSettings`, shown by `Settings.NonNumericCountKeepsRawError` | `Settings.ValidateCrawlingSettingsIntended` |
| amazon_smartstore_integrated.py:1095-1097 | Same test around the margin rate, which only `int()` parses, so "마진율은 숫자여야 합니다." is used only when the margin text itself contains "could not convert" | margin rate = "abc" | a non-numeric margin rate reports "마진율은 숫자여야 합니다." | high; not executed | `Settings.ValidateSmartstoreSettings`, shown by `Settings.NonNumericMarginKeepsRawError` | `Settings.ValidateSmartstoreSettingsIntended` |
