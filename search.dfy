/** The search feature: the per-item field rules of `parse_search_item_html`,
    the bulk (fail-fast) and streaming (skip-and-continue) parses over the
    item fragments of a result page, and `SearchClient` with its result cache.

    HTML is not parsed here. An item fragment is given as the first element
    each of the extractor's selectors matches in it, with that element's
    attributes and its first text node. */
module Search {
  import opened Errors
  import opened Text
  import opened Cache
  import opened Client

  datatype AgeCategory = General | R15 | Adult

  /** `WorkType`: its parser is an input; `Unknown` is its catch-all variant. */
  datatype WorkType = Known(code: string) | Unknown(code: string)

  /** A matched element: its attributes and its first text node, if any. */
  datatype Element = Element(attrs: map<string, string>, firstText: Option<string>)

  function Attr(e: Element, name: string): Option<string>
  {
    if name in e.attrs then Some(e.attrs[name]) else None
  }

  /** One `#search_result_img_box > li` fragment, as the first match of each selector. */
  datatype ItemFragment = ItemFragment(
    productId: Option<Element>,     // div[data-product_id]
    maker: Option<Element>,         // .maker_name a
    author: Option<Element>,        // .author
    creatorLink: Option<Element>,   // a, searched inside the .author element
    workPrice: Option<Element>,     // .work_price .work_price_base
    strikePrice: Option<Element>,   // .work_price_wrap .strike .work_price_base
    workTitle: Option<string>,      // the title attribute of .work_name a[title]
    genre: Option<Element>,         // .work_genre span
    dlCount: Option<Element>,       // .work_dl span[class*="dl_count"]
    review: Option<Element>,        // .work_review div a
    workCategory: Option<Element>,  // .work_category
    thumbnail: Option<Element>)     // .work_thumb_inner > img

  datatype SearchProductItem = SearchProductItem(
    id: string,
    title: string,
    creator: Option<string>,
    creatorOmitted: Option<bool>,
    circleName: string,
    circleId: string,
    dlCount: Option<i32>,
    rateCount: Option<i32>,
    reviewCount: Option<i32>,
    priceOriginal: i32,
    priceSale: Option<i32>,
    ageCategory: AgeCategory,
    workType: WorkType,
    thumbnailUrl: string)

  // ---------------------------------------------------------------------------
  // The two numeric parsers

  const CountNoise: set<char> := {'(', ')', ','}

  /** `parse_count_str`: drop every parenthesis and comma, then parse an `i32`. */
  function ParseCountStr(s: string): (r: Result<i32>)
    ensures r.Err? ==> r == Err(Parse("Failed to parse string to count"))
    ensures r.Ok? ==> |s| > 0
  {
    ToParseError(ParseI32(RemoveChars(s, CountNoise)), "Failed to parse string to count")
  }

  /** `parse_num_str`: drop the commas only, then parse an `i32`. */
  function ParseNumStr(s: string): (r: Result<i32>)
    ensures r.Err? ==> r == Err(Parse("Failed to parse string to number"))
    ensures r.Ok? ==> |s| > 0
  {
    ToParseError(ParseI32(RemoveChars(s, {','})), "Failed to parse string to number")
  }

  /** Whatever `i32` parsing accepts holds no parenthesis. */
  lemma ParsedHasNoParens(t: string)
    requires ParseI32(t).Some?
    ensures forall i :: 0 <= i < |t| ==> t[i] != '(' && t[i] != ')'
  {
    forall i | 0 <= i < |t| ensures t[i] != '(' && t[i] != ')' {
      if i > 0 {
        var digits := if t[0] == '+' || t[0] == '-' then t[1..] else t;
        if t[0] == '+' || t[0] == '-' { assert digits[i - 1] == t[i]; } else { assert digits[i] == t[i]; }
      }
    }
  }

  /** What `parse_num_str` accepts, `parse_count_str` accepts with the same value. */
  lemma CountAgreesWithNum(s: string)
    requires ParseNumStr(s).Ok?
    ensures ParseCountStr(s) == ParseNumStr(s)
  {
    var t := RemoveChars(s, {','});
    ParsedHasNoParens(t);
    RemoveAbsentChars(t, {'(', ')'});
    RemoveCharsTwice(s, {','}, {'(', ')'});
    assert {','} + {'(', ')'} == CountNoise;
  }

  /** A parenthesised count such as "(" ++ digits ++ ")" parses to its value. */
  lemma CountInParens(n: nat)
    requires n <= I32Max
    ensures ParseCountStr("(" + ShowNat(n) + ")") == Ok(n)
  {
    var d := ShowNat(n);
    RemoveCharsConcat("(", d + ")", CountNoise);
    RemoveCharsConcat(d, ")", CountNoise);
    assert "(" + d + ")" == "(" + (d + ")");
    assert forall i :: 0 <= i < |d| ==> d[i] !in CountNoise by {
      forall i | 0 <= i < |d| ensures d[i] !in CountNoise { assert IsDigit(d[i]); }
    }
    RemoveAbsentChars(d, CountNoise);
    assert RemoveChars(")", CountNoise) == [];
    assert RemoveChars("(", CountNoise) == [];
    assert RemoveChars("(" + d + ")", CountNoise) == d;
    ParseShowNat(n);
  }

  lemma FourDigits(a: char, b: char, c: char, d: char)
    requires IsDigit(a) && IsDigit(b) && IsDigit(c) && IsDigit(d)
    ensures ParseI32([a, b, c, d]) == Some(
      (a as int - '0' as int) * 1000 + (b as int - '0' as int) * 100 + (c as int - '0' as int) * 10 + (d as int - '0' as int))
  {
    assert [a] == [] + [a];
    DigitsValueSnoc([], a);
    DigitsValueSnoc([a], b);
    assert [a] + [b] == [a, b];
    DigitsValueSnoc([a, b], c);
    assert [a, b] + [c] == [a, b, c];
    DigitsValueSnoc([a, b, c], d);
    assert [a, b, c] + [d] == [a, b, c, d];
    ParseDigits([a, b, c, d]);
  }

  /** Digits survive the removal of the count's punctuation untouched. */
  lemma DigitsKeptInCount(d: string)
    requires AllDigits(d)
    ensures RemoveChars(d, CountNoise) == d
  {
    forall i | 0 <= i < |d| ensures d[i] !in CountNoise { assert IsDigit(d[i]); }
    RemoveAbsentChars(d, CountNoise);
  }

  /** A count grouped as "(" ++ digits ++ "," ++ digits ++ ")" loses its
      parentheses and its separator and nothing else. */
  lemma GroupedCount(a: string, b: string)
    requires AllDigits(a) && AllDigits(b)
    ensures RemoveChars("(" + a + "," + b + ")", CountNoise) == a + b
  {
    var separated := [','] + (b + ")");
    ClosedDigits(b);
    DropNoise(',', b + ")");
    DigitsKeptInCount(a);
    RemoveCharsConcat(a, separated, CountNoise);
    DropNoise('(', a + separated);
    assert "(" + a + "," + b + ")" == ['('] + (a + separated);
  }

  /** A removed character in front is simply dropped. */
  lemma DropNoise(c: char, t: string)
    requires c in CountNoise
    ensures RemoveChars([c] + t, CountNoise) == RemoveChars(t, CountNoise)
  {
    RemoveCharsCons(c, t, CountNoise);
  }

  /** Digits followed by a closing parenthesis keep only the digits. */
  lemma ClosedDigits(b: string)
    requires AllDigits(b)
    ensures RemoveChars(b + ")", CountNoise) == b
  {
    DigitsKeptInCount(b);
    DropNoise(')', []);
    assert [')'] + [] == ")";
    RemoveCharsConcat(b, ")", CountNoise);
  }

  /** The count parser's example: "(1,234)" is a count of 1234. */
  lemma CountExample(s: string)
    requires s == "(1,234)"
    ensures ParseCountStr(s) == Ok(1234)
  {
    var a, b := ['1'], ['2', '3', '4'];
    GroupedCount(a, b);
    assert s == "(" + a + "," + b + ")";
    assert a + b == ['1', '2', '3', '4'];
    FourDigits('1', '2', '3', '4');
  }

  /** The number parser drops the thousands separators: "1,980" is 1980. */
  lemma NumExample()
    ensures ParseNumStr("1,980") == Ok(1980)
  {
    assert RemoveChars("1,980", {','}) == "1980" by {
      RemoveCharsCons('0', "", {','});
      RemoveCharsCons('8', "0", {','});
      RemoveCharsCons('9', "80", {','});
      RemoveCharsCons(',', "980", {','});
      RemoveCharsCons('1', ",980", {','});
    }
    FourDigits('1', '9', '8', '0');
  }

  /** The number parser does not drop parentheses: "(12)" is no number. */
  lemma ParenthesisedNumRejected()
    ensures ParseNumStr("(12)") == Err(Parse("Failed to parse string to number"))
  {
    RemoveAbsentChars("(12)", {','});
    LeadingNonDigitRejected("(12)");
  }

  // ---------------------------------------------------------------------------
  // Field rules

  /** `Iterator::next` and `DoubleEndedIterator::next_back` on a split. */
  function Next<T>(s: seq<T>): Option<T>
  {
    if |s| > 0 then Some(s[0]) else None
  }

  function NextBack<T>(s: seq<T>): Option<T>
  {
    if |s| > 0 then Some(s[|s| - 1]) else None
  }

  /** No genre span means an adult work; its title must be one of the two known labels. */
  function AgeCategoryOf(genre: Option<Element>): (r: Result<AgeCategory>)
    ensures r.Ok? && r.value == Adult <==> genre.None?
    ensures r.Err? ==> r.error.Parse?
  {
    match genre
    case None => Ok(Adult)
    case Some(e) =>
      match Attr(e, "title")
      case None => Err(Parse("Age category parse error"))
      case Some(title) =>
        if title == "全年齢" then Ok(General)
        else if title == "R-15" then Ok(R15)
        else Err(Parse("Age category parse error: invalid title"))
  }

  /** The circle id: the last `/`-segment of the maker link, up to its first `.`. */
  function CircleIdOf(maker: Element): (r: Result<string>)
    ensures r.Err? ==> r.error.Parse?
    ensures r.Ok? ==> '/' !in r.value && '.' !in r.value
  {
    var href :- ToParseError(Attr(maker, "href"), "Failed to get maker link");
    match NextBack(Split(href, '/'))
    case None => Err(Parse("Invalid url"))
    case Some(segment) =>
      match Next(Split(segment, '.'))
      case None => Err(Parse("Failed to find maker id"))
      case Some(id) =>
        SplitPiecesFree(href, '/');
        SplitPiecesFree(segment, '.');
        SplitPiecesAvoid(segment, '.', '/');
        Ok(id)
  }

  /** The creator's name is the first text of the first link inside `.author`. */
  function CreatorOf(author: Option<Element>, link: Option<Element>): (r: Result<Option<string>>)
  {
    match author
    case None => Ok(None)
    case Some(_) =>
      var a :- ToParseError(link, "Failed to find creator");
      var name :- ToParseError(a.firstText, "Failed to find creator");
      Ok(Some(name))
  }

  /** The creator list is cut short when `.author` carries the class token `omit`. */
  function CreatorOmittedOf(author: Option<Element>): (r: Result<Option<bool>>)
  {
    match author
    case None => Ok(None)
    case Some(a) =>
      var cls :- ToParseError(Attr(a, "class"), "Failed to find creator");
      Ok(Some("omit" in Split(cls, ' ')))
  }

  /** `dl_count`: commas dropped, then an `i32`. */
  function DlCountOf(e: Option<Element>): (r: Result<Option<i32>>)
  {
    match e
    case None => Ok(None)
    case Some(el) =>
      var text :- ToParseError(el.firstText, "Failed to get dl count");
      var n :- ToParseError(ParseI32(RemoveChars(text, {','})), "Invalid dl count");
      Ok(Some(n))
  }

  /** `rate_count` and `review_count`: the element's first text through `parse_count_str`. */
  function CountOf(e: Option<Element>, missing: string): (r: Result<Option<i32>>)
  {
    match e
    case None => Ok(None)
    case Some(el) =>
      var text :- ToParseError(el.firstText, missing);
      var n :- ParseCountStr(text);
      Ok(Some(n))
  }

  function PriceOf(e: Element): Result<i32>
  {
    var text :- ToParseError(e.firstText, "Failed to find price");
    ParseNumStr(text)
  }

  function SalePriceOf(e: Option<Element>): Result<Option<i32>>
  {
    match e
    case None => Ok(None)
    case Some(el) =>
      var n :- PriceOf(el);
      Ok(Some(n))
  }

  /** The `find_map` closure: a `type_` token whose rest parses to a known work type. */
  function TypeToken(token: string, parseWorkType: string -> Option<WorkType>): Option<WorkType>
  {
    match StripPrefix(token, "type_")
    case None => None
    case Some(rest) =>
      match parseWorkType(rest)
      case None => None
      case Some(wt) => if wt.Unknown? then None else Some(wt)
  }

  /** Token `i` is the first of `tokens` that names a known work type, and names `wt`. */
  predicate FirstTypeTokenAt(tokens: seq<string>, i: int, parseWorkType: string -> Option<WorkType>, wt: WorkType)
  {
    && 0 <= i < |tokens|
    && TypeToken(tokens[i], parseWorkType) == Some(wt)
    && forall j :: 0 <= j < i ==> TypeToken(tokens[j], parseWorkType).None?
  }

  /** `find_map` over the class tokens: the first token that names a known work type. */
  function FindWorkType(tokens: seq<string>, parseWorkType: string -> Option<WorkType>): Option<WorkType>
  {
    if tokens == [] then None
    else
      match TypeToken(tokens[0], parseWorkType)
      case Some(wt) => Some(wt)
      case None => FindWorkType(tokens[1..], parseWorkType)
  }

  /** The scan finds nothing exactly when no token names a known type, and
      otherwise finds the first that does. */
  lemma {:induction false} FindWorkTypeSpec(tokens: seq<string>, parseWorkType: string -> Option<WorkType>)
    ensures var r := FindWorkType(tokens, parseWorkType);
      && (r.None? <==> forall i :: 0 <= i < |tokens| ==> TypeToken(tokens[i], parseWorkType).None?)
      && (r.Some? ==> r.value.Known? && exists i :: FirstTypeTokenAt(tokens, i, parseWorkType, r.value))
  {
    if tokens != [] {
      var r := FindWorkType(tokens, parseWorkType);
      match TypeToken(tokens[0], parseWorkType)
      case Some(wt) =>
        assert FirstTypeTokenAt(tokens, 0, parseWorkType, wt);
      case None =>
        FindWorkTypeSpec(tokens[1..], parseWorkType);
        assert forall i :: 1 <= i < |tokens| ==> tokens[1..][i - 1] == tokens[i];
        if r.Some? {
          var k :| FirstTypeTokenAt(tokens[1..], k, parseWorkType, r.value);
          assert FirstTypeTokenAt(tokens, k + 1, parseWorkType, r.value);
        }
    }
  }

  /** The work type named by the category's class tokens, `Unknown("")` when none names one. */
  function WorkTypeOf(category: Option<Element>, parseWorkType: string -> Option<WorkType>): (r: Result<WorkType>)
    ensures r.Ok? <==> category.Some? && Attr(category.value, "class").Some?
    ensures r.Err? ==> r.error.Parse?
    ensures r.Ok? && r.value.Unknown? ==> r.value == Unknown("")
  {
    var e :- ToParseError(category, "Failed to find work category");
    var cls :- ToParseError(Attr(e, "class"), "Failed to find worktype");
    FindWorkTypeSpec(Split(cls, ' '), parseWorkType);
    Ok(FindWorkType(Split(cls, ' '), parseWorkType).GetOr(Unknown("")))
  }

  /** The eager `src` wins over the lazy `data-src`; both are protocol-relative. */
  function ThumbnailOf(img: Option<Element>): (r: Result<string>)
    ensures r.Ok? ==> |r.value| >= 6 && r.value[..6] == "https:"
    ensures r.Err? ==> r == Err(Parse("Failed to find thumbnail"))
  {
    var e :- ToParseError(img, "Failed to find thumbnail");
    match (Attr(e, "src"), Attr(e, "data-src"))
    case (Some(src), _) => Ok("https:" + src)
    case (_, Some(dataSrc)) => Ok("https:" + dataSrc)
    case (_, _) => Err(Parse("Failed to find thumbnail"))
  }

  /** The elements every item needs and the product id; the strike-through
      price, when present, is the original price and the displayed one the sale price. */
  datatype ItemHead = ItemHead(id: string, makerE: Element, originalPriceE: Element, salePriceE: Option<Element>)

  function ParseItemHead(f: ItemFragment): (r: Result<ItemHead>)
    ensures r.Ok? <==> f.productId.Some? && f.maker.Some? && f.workPrice.Some?
                       && "data-product_id" in f.productId.value.attrs
    ensures r.Err? ==> r.error.Parse?
    ensures r.Ok? ==> r.value.id == f.productId.value.attrs["data-product_id"] && r.value.makerE == f.maker.value
    ensures r.Ok? ==> (r.value.salePriceE.Some? <==> f.strikePrice.Some?)
    ensures r.Ok? && f.strikePrice.Some? ==>
      r.value.originalPriceE == f.strikePrice.value && r.value.salePriceE == Some(f.workPrice.value)
    ensures r.Ok? && f.strikePrice.None? ==> r.value.originalPriceE == f.workPrice.value
  {
    var productIdE :- ToParseError(f.productId, "Failed to find data element");
    var makerE :- ToParseError(f.maker, "Failed to find maker element");
    var priceE :- ToParseError(f.workPrice, "Failed to find price element");
    var salePriceE := if f.strikePrice.Some? then Some(priceE) else None;
    var originalPriceE := if f.strikePrice.Some? then f.strikePrice.value else priceE;
    var id :- ToParseError(Attr(productIdE, "data-product_id"), "Failed to get product id");
    Ok(ItemHead(id, makerE, originalPriceE, salePriceE))
  }

  /** The title, the age category and the circle and creator fields, in the struct's order. */
  datatype ItemNames = ItemNames(
    title: string, ageCategory: AgeCategory, circleName: string, circleId: string,
    creator: Option<string>, creatorOmitted: Option<bool>)

  function ParseItemNames(f: ItemFragment, makerE: Element): Result<ItemNames>
  {
    var title :- ToParseError(f.workTitle, "Failed to get title");
    var ageCategory :- AgeCategoryOf(f.genre);
    var circleName := makerE.firstText.GetOr("");
    var circleId :- CircleIdOf(makerE);
    var creator :- CreatorOf(f.author, f.creatorLink);
    var creatorOmitted :- CreatorOmittedOf(f.author);
    Ok(ItemNames(title, ageCategory, circleName, circleId, creator, creatorOmitted))
  }

  /** The counters and the prices, in the struct's order. */
  datatype ItemNumbers = ItemNumbers(
    dlCount: Option<i32>, rateCount: Option<i32>, reviewCount: Option<i32>,
    priceOriginal: i32, priceSale: Option<i32>)

  function ParseItemNumbers(f: ItemFragment, head: ItemHead): Result<ItemNumbers>
  {
    var dlCount :- DlCountOf(f.dlCount);
    var rateCount :- CountOf(f.dlCount, "Failed to get rate count");
    var reviewCount :- CountOf(f.review, "Failed to get review count");
    var priceOriginal :- PriceOf(head.originalPriceE);
    var priceSale :- SalePriceOf(head.salePriceE);
    Ok(ItemNumbers(dlCount, rateCount, reviewCount, priceOriginal, priceSale))
  }

  /** `parse_search_item_html`: the fields in the source's order, the first failure winning. */
  function ParseSearchItemHtml(f: ItemFragment, parseWorkType: string -> Option<WorkType>): (r: Result<SearchProductItem>)
    ensures r.Err? ==> r.error.Parse?
  {
    var head :- ParseItemHead(f);
    var names :- ParseItemNames(f, head.makerE);
    var numbers :- ParseItemNumbers(f, head);
    var workType :- WorkTypeOf(f.workCategory, parseWorkType);
    var thumbnailUrl :- ThumbnailOf(f.thumbnail);
    Ok(SearchProductItem(
      head.id, names.title, names.creator, names.creatorOmitted, names.circleName, names.circleId,
      numbers.dlCount, numbers.rateCount, numbers.reviewCount, numbers.priceOriginal, numbers.priceSale,
      names.ageCategory, workType, thumbnailUrl))
  }

  // ---------------------------------------------------------------------------
  // What a parsed item says about its fragment

  /** Every field rule succeeds: the reference condition for an item to parse. */
  predicate FieldsParse(f: ItemFragment, parseWorkType: string -> Option<WorkType>)
  {
    && f.productId.Some? && f.maker.Some? && f.workPrice.Some?
    && "data-product_id" in f.productId.value.attrs
    && f.workTitle.Some?
    && AgeCategoryOf(f.genre).Ok?
    && CircleIdOf(f.maker.value).Ok?
    && CreatorOf(f.author, f.creatorLink).Ok?
    && CreatorOmittedOf(f.author).Ok?
    && DlCountOf(f.dlCount).Ok?
    && CountOf(f.dlCount, "Failed to get rate count").Ok?
    && CountOf(f.review, "Failed to get review count").Ok?
    && PriceOf(if f.strikePrice.Some? then f.strikePrice.value else f.workPrice.value).Ok?
    && (f.strikePrice.Some? ==> PriceOf(f.workPrice.value).Ok?)
    && WorkTypeOf(f.workCategory, parseWorkType).Ok?
    && ThumbnailOf(f.thumbnail).Ok?
  }

  /** An item parses exactly when every one of its field rules does. */
  lemma ItemParsesIff(f: ItemFragment, parseWorkType: string -> Option<WorkType>)
    ensures ParseSearchItemHtml(f, parseWorkType).Ok? <==> FieldsParse(f, parseWorkType)
  {
  }

  /** The fragment's required elements fail the item with the source's own messages. */
  lemma MissingRequiredElement(f: ItemFragment, parseWorkType: string -> Option<WorkType>)
    ensures f.productId.None? ==>
      ParseSearchItemHtml(f, parseWorkType) == Err(Parse("Failed to find data element"))
    ensures f.productId.Some? && f.maker.None? ==>
      ParseSearchItemHtml(f, parseWorkType) == Err(Parse("Failed to find maker element"))
    ensures f.productId.Some? && f.maker.Some? && f.workPrice.None? ==>
      ParseSearchItemHtml(f, parseWorkType) == Err(Parse("Failed to find price element"))
    ensures f.workCategory.None? || f.thumbnail.None? || f.workTitle.None? ==>
      ParseSearchItemHtml(f, parseWorkType).Err?
  {
  }

  /** A parsed item's fields are the results of the field rules on its fragment. */
  lemma ItemFields(f: ItemFragment, parseWorkType: string -> Option<WorkType>, item: SearchProductItem)
    requires ParseSearchItemHtml(f, parseWorkType) == Ok(item)
    ensures f.productId.Some? && item.id == f.productId.value.attrs["data-product_id"]
    ensures item.title == f.workTitle.value
    ensures f.maker.Some? && item.circleName == f.maker.value.firstText.GetOr("")
    ensures AgeCategoryOf(f.genre) == Ok(item.ageCategory)
    ensures CircleIdOf(f.maker.value) == Ok(item.circleId)
    ensures CreatorOf(f.author, f.creatorLink) == Ok(item.creator)
    ensures CreatorOmittedOf(f.author) == Ok(item.creatorOmitted)
    ensures WorkTypeOf(f.workCategory, parseWorkType) == Ok(item.workType)
    ensures ThumbnailOf(f.thumbnail) == Ok(item.thumbnailUrl)
  {
  }

  /** The counters of a parsed item are the results of their rules. */
  lemma ItemCounters(f: ItemFragment, parseWorkType: string -> Option<WorkType>, item: SearchProductItem)
    requires ParseSearchItemHtml(f, parseWorkType) == Ok(item)
    ensures DlCountOf(f.dlCount) == Ok(item.dlCount)
    ensures CountOf(f.dlCount, "Failed to get rate count") == Ok(item.rateCount)
    ensures CountOf(f.review, "Failed to get review count") == Ok(item.reviewCount)
  {
  }

  /** The price split: a struck-through price is the original one and the
      displayed price is then the sale price. */
  lemma PriceSplit(f: ItemFragment, parseWorkType: string -> Option<WorkType>, item: SearchProductItem)
    requires ParseSearchItemHtml(f, parseWorkType) == Ok(item)
    ensures f.workPrice.Some?
    ensures f.strikePrice.Some? ==>
      && PriceOf(f.strikePrice.value) == Ok(item.priceOriginal)
      && item.priceSale.Some? && PriceOf(f.workPrice.value) == Ok(item.priceSale.value)
    ensures f.strikePrice.None? ==>
      PriceOf(f.workPrice.value) == Ok(item.priceOriginal) && item.priceSale.None?
  {
  }

  /** The genre span's title picks the age category; no span means adult only. */
  lemma AgeCategoryLabels(genre: Option<Element>, age: AgeCategory)
    requires AgeCategoryOf(genre) == Ok(age)
    ensures genre.None? <==> age == Adult
    ensures genre.Some? ==>
      && (age == General <==> Attr(genre.value, "title") == Some("全年齢"))
      && (age == R15 <==> Attr(genre.value, "title") == Some("R-15"))
  {
  }

  /** Each title maps to its category, and a span without one of the two known
      titles is an error with the source's own message. */
  lemma AgeCategoryForward(e: Element)
    ensures AgeCategoryOf(None) == Ok(Adult)
    ensures Attr(e, "title") == Some("全年齢") ==> AgeCategoryOf(Some(e)) == Ok(General)
    ensures Attr(e, "title") == Some("R-15") ==> AgeCategoryOf(Some(e)) == Ok(R15)
    ensures Attr(e, "title").None? ==> AgeCategoryOf(Some(e)) == Err(Parse("Age category parse error"))
    ensures Attr(e, "title").Some? && Attr(e, "title") != Some("全年齢") && Attr(e, "title") != Some("R-15") ==>
      AgeCategoryOf(Some(e)) == Err(Parse("Age category parse error: invalid title"))
  {
  }

  /** A genre span without a title, or with any other title, fails the item. */
  lemma UnknownAgeLabelFails(f: ItemFragment, parseWorkType: string -> Option<WorkType>)
    requires f.genre.Some?
    requires Attr(f.genre.value, "title") != Some("全年齢") && Attr(f.genre.value, "title") != Some("R-15")
    ensures ParseSearchItemHtml(f, parseWorkType).Err?
  {
  }

  /** The circle id is the maker link's last path segment up to its first dot. */
  lemma CircleIdShape(maker: Element, id: string)
    requires CircleIdOf(maker) == Ok(id)
    ensures Attr(maker, "href").Some?
    ensures var segments := Split(Attr(maker, "href").value, '/');
      id == Split(segments[|segments| - 1], '.')[0]
    ensures '/' !in id && '.' !in id
  {
    var href := Attr(maker, "href").value;
    var segments := Split(href, '/');
    var last := segments[|segments| - 1];
    SplitPiecesFree(href, '/');
    SplitPiecesFree(last, '.');
    SplitPiecesAvoid(last, '.', '/');
  }

  /** For a link `.../<id>.<ext>` the circle id is `<id>`. */
  lemma CircleIdOfLink(maker: Element, dir: string, id: string, ext: string)
    requires '/' !in id && '.' !in id && '/' !in ext
    requires Attr(maker, "href") == Some(dir + "/" + id + "." + ext)
    ensures CircleIdOf(maker) == Ok(id)
  {
    var segment := id + "." + ext;
    assert dir + "/" + id + "." + ext == dir + ['/'] + segment;
    SplitConcat(dir, '/', segment);
    assert '/' !in segment;
    SplitNoSeparator(segment, '/');
    SplitConcat(id, '.', ext);
    SplitNoSeparator(id, '.');
  }

  /** The profile link of the circle behind RJ291224. */
  lemma CircleIdExample(maker: Element)
    requires Attr(maker, "href") == Some("https://www.dlsite.com/maniax/circle/profile/=/maker_id/RG51654.html")
    ensures CircleIdOf(maker) == Ok("RG51654")
  {
    var dir := "https://www.dlsite.com/maniax/circle/profile/=/maker_id";
    assert dir + "/" + "RG51654" + "." + "html" ==
      "https://www.dlsite.com/maniax/circle/profile/=/maker_id/RG51654.html";
    CircleIdOfLink(maker, dir, "RG51654", "html");
  }

  /** The creator fields exist exactly when the `.author` element does; the
      list is marked omitted when `omit` is one of its class tokens. */
  lemma CreatorRule(author: Option<Element>, link: Option<Element>, creator: Option<string>, omitted: Option<bool>)
    requires CreatorOf(author, link) == Ok(creator) && CreatorOmittedOf(author) == Ok(omitted)
    ensures creator.None? <==> author.None?
    ensures omitted.None? <==> author.None?
    ensures author.Some? ==>
      && link.Some? && link.value.firstText == creator
      && Attr(author.value, "class").Some?
      && (omitted == Some(true) <==> "omit" in Split(Attr(author.value, "class").value, ' '))
  {
  }

  /** `dl_count` and `rate_count` read the same element; when both parse they agree. */
  lemma DlAndRateAgree(e: Option<Element>, dl: Option<i32>, rate: Option<i32>)
    requires DlCountOf(e) == Ok(dl) && CountOf(e, "Failed to get rate count") == Ok(rate)
    ensures dl == rate
    ensures dl.None? <==> e.None?
  {
    if e.Some? {
      var text := e.value.firstText.value;
      assert ParseNumStr(text).Ok?;
      CountAgreesWithNum(text);
    }
  }

  /** So in every parsed item the rate count mirrors the download count. */
  lemma RateCountMirrorsDlCount(f: ItemFragment, parseWorkType: string -> Option<WorkType>, item: SearchProductItem)
    requires ParseSearchItemHtml(f, parseWorkType) == Ok(item)
    ensures item.rateCount == item.dlCount
    ensures item.dlCount.None? <==> f.dlCount.None?
  {
    ItemCounters(f, parseWorkType, item);
    DlAndRateAgree(f.dlCount, item.dlCount, item.rateCount);
  }

  /** The work type is named by the first `type_` class token that parses to a
      known type, and is `Unknown("")` when there is none. */
  lemma WorkTypeRule(category: Option<Element>, parseWorkType: string -> Option<WorkType>, wt: WorkType)
    requires WorkTypeOf(category, parseWorkType) == Ok(wt)
    ensures category.Some? && Attr(category.value, "class").Some?
    ensures wt.Known? ==>
      exists i :: FirstTypeTokenAt(Split(Attr(category.value, "class").value, ' '), i, parseWorkType, wt)
    ensures wt.Unknown? ==>
      forall i :: 0 <= i < |Split(Attr(category.value, "class").value, ' ')| ==>
        TypeToken(Split(Attr(category.value, "class").value, ' ')[i], parseWorkType).None?
    ensures (forall i :: 0 <= i < |Split(Attr(category.value, "class").value, ' ')| ==>
        TypeToken(Split(Attr(category.value, "class").value, ' ')[i], parseWorkType).None?) ==> wt.Unknown?
    ensures wt.Unknown? ==> wt == Unknown("")
  {
    var tokens := Split(Attr(category.value, "class").value, ' ');
    FindWorkTypeSpec(tokens, parseWorkType);
    var r := FindWorkType(tokens, parseWorkType);
    if r.Some? {
      assert wt == r.value;
    } else {
      assert wt == Unknown("");
    }
  }

  /** The thumbnail is the `src` image when there is one, else the lazy `data-src`. */
  lemma ThumbnailRule(img: Option<Element>, url: string)
    requires ThumbnailOf(img) == Ok(url)
    ensures img.Some?
    ensures Attr(img.value, "src").Some? ==> url == "https:" + Attr(img.value, "src").value
    ensures Attr(img.value, "src").None? ==>
      Attr(img.value, "data-src").Some? && url == "https:" + Attr(img.value, "data-src").value
  {
  }

  /** `src` gives the URL whenever it is present; `data-src` only when `src` is absent. */
  lemma ThumbnailForward(e: Element)
    ensures ThumbnailOf(None) == Err(Parse("Failed to find thumbnail"))
    ensures Attr(e, "src").Some? ==> ThumbnailOf(Some(e)) == Ok("https:" + Attr(e, "src").value)
    ensures Attr(e, "src").None? && Attr(e, "data-src").Some? ==>
      ThumbnailOf(Some(e)) == Ok("https:" + Attr(e, "data-src").value)
    ensures Attr(e, "src").None? && Attr(e, "data-src").None? ==>
      ThumbnailOf(Some(e)) == Err(Parse("Failed to find thumbnail"))
  {
  }

  /** An image with neither attribute fails the item. */
  lemma ThumbnailMissingFails(f: ItemFragment, parseWorkType: string -> Option<WorkType>)
    requires f.thumbnail.Some? && Attr(f.thumbnail.value, "src").None? && Attr(f.thumbnail.value, "data-src").None?
    ensures ParseSearchItemHtml(f, parseWorkType).Err?
  {
  }

  // ---------------------------------------------------------------------------
  // Whole result pages

  /** `collect::<Result<Vec<_>>>()`: all values in order, or the first error. */
  function Collect<T>(results: seq<Result<T>>): (r: Result<seq<T>>)
    ensures r.Ok? ==> |r.value| == |results|
  {
    if results == [] then Ok([])
    else if results[0].Err? then Err(results[0].error)
    else
      var rest := Collect(results[1..]);
      if rest.Err? then Err(rest.error) else Ok([results[0].value] + rest.value)
  }

  /** Collecting succeeds exactly when every result does, keeping each value in place. */
  lemma {:induction false} CollectOk<T>(results: seq<Result<T>>)
    ensures Collect(results).Ok? <==> forall i :: 0 <= i < |results| ==> results[i].Ok?
    ensures Collect(results).Ok? ==>
      forall i :: 0 <= i < |results| ==> results[i] == Ok(Collect(results).value[i])
  {
    if results != [] {
      CollectOk(results[1..]);
      assert forall i :: 1 <= i < |results| ==> results[1..][i - 1] == results[i];
      if Collect(results).Ok? {
        var tail := Collect(results[1..]).value;
        assert Collect(results).value == [results[0].value] + tail;
      }
    }
  }

  /** A failed collect reports the first error. */
  lemma {:induction false} CollectErr<T>(results: seq<Result<T>>)
    requires Collect(results).Err?
    ensures exists i :: FirstErrAt(results, i, Collect(results).error)
  {
    if results[0].Err? {
      assert FirstErrAt(results, 0, Collect(results).error);
    } else {
      CollectErr(results[1..]);
      var k :| FirstErrAt(results[1..], k, Collect(results).error);
      assert forall j :: 1 <= j <= k ==> results[1..][j - 1] == results[j];
      assert FirstErrAt(results, k + 1, Collect(results).error);
    }
  }

  /** `results[i]` is the first error, and it is `e`. */
  predicate FirstErrAt<T>(results: seq<Result<T>>, i: int, e: DlsiteError)
  {
    && 0 <= i < |results|
    && results[i] == Err(e)
    && forall j :: 0 <= j < i ==> results[j].Ok?
  }

  /** The values of the results that succeeded, in order. */
  function Successes<T>(results: seq<Result<T>>): (values: seq<T>)
    ensures |values| <= |results|
  {
    if results == [] then []
    else
      (if results[0].Ok? then [results[0].value] else []) + Successes(results[1..])
  }

  lemma {:induction false} CollectSnoc<T>(results: seq<Result<T>>, x: Result<T>)
    requires Collect(results).Ok?
    ensures Collect(results + [x]) == if x.Ok? then Ok(Collect(results).value + [x.value]) else Err(x.error)
  {
    if results == [] {
      assert [] + [x] == [x] && [x][1..] == [];
      if x.Ok? {
        assert [] + [x.value] == [x.value] + [];
      }
    } else {
      assert (results + [x])[0] == results[0] && (results + [x])[1..] == results[1..] + [x];
      CollectSnoc(results[1..], x);
      var tail := Collect(results[1..]).value;
      assert Collect(results).value == [results[0].value] + tail;
      if x.Ok? {
        assert [results[0].value] + (tail + [x.value]) == ([results[0].value] + tail) + [x.value];
      }
    }
  }

  lemma {:induction false} CollectPrefixErr<T>(results: seq<Result<T>>, n: nat)
    requires n <= |results| && Collect(results[..n]).Err?
    ensures Collect(results) == Collect(results[..n])
  {
    assert results[..n] != [];
    assert results[..n][0] == results[0] && results[..n][1..] == results[1..][..n - 1];
    if results[0].Ok? {
      CollectPrefixErr(results[1..], n - 1);
    }
  }

  lemma {:induction false} SuccessesSnoc<T>(results: seq<Result<T>>, x: Result<T>)
    ensures Successes(results + [x]) == Successes(results) + (if x.Ok? then [x.value] else [])
  {
    if results == [] {
      assert [] + [x] == [x] && [x][1..] == [];
    } else {
      assert (results + [x])[0] == results[0] && (results + [x])[1..] == results[1..] + [x];
      SuccessesSnoc(results[1..], x);
    }
  }

  lemma {:induction false} SuccessesConcat<T>(a: seq<Result<T>>, b: seq<Result<T>>)
    ensures Successes(a + b) == Successes(a) + Successes(b)
  {
    if a == [] {
      assert a + b == b;
    } else {
      assert (a + b)[0] == a[0] && (a + b)[1..] == a[1..] + b;
      SuccessesConcat(a[1..], b);
    }
  }

  /** Skipping the failures keeps everything exactly when collecting succeeds,
      and then both give the same values. */
  lemma {:induction false} SuccessesVersusCollect<T>(results: seq<Result<T>>)
    ensures Collect(results).Ok? <==> |Successes(results)| == |results|
    ensures Collect(results).Ok? ==> Successes(results) == Collect(results).value
  {
    if results != [] {
      SuccessesVersusCollect(results[1..]);
    }
  }

  /** Each fragment through the item parser, in document order: the `map`
      that rayon distributes. */
  function ParseEach(frags: seq<ItemFragment>, parseWorkType: string -> Option<WorkType>): (results: seq<Result<SearchProductItem>>)
    ensures |results| == |frags|
  {
    seq(|frags|, i requires 0 <= i < |frags| => ParseSearchItemHtml(frags[i], parseWorkType))
  }

  lemma ParseEachAt(frags: seq<ItemFragment>, parseWorkType: string -> Option<WorkType>, i: nat)
    requires i < |frags|
    ensures ParseEach(frags, parseWorkType)[i] == ParseSearchItemHtml(frags[i], parseWorkType)
  {
  }

  lemma ParseEachConcat(a: seq<ItemFragment>, b: seq<ItemFragment>, parseWorkType: string -> Option<WorkType>)
    ensures ParseEach(a + b, parseWorkType) == ParseEach(a, parseWorkType) + ParseEach(b, parseWorkType)
  {
    var l, r := ParseEach(a + b, parseWorkType), ParseEach(a, parseWorkType) + ParseEach(b, parseWorkType);
    forall k | 0 <= k < |l| ensures l[k] == r[k] {
      ParseEachAt(a + b, parseWorkType, k);
      if k < |a| {
        assert (a + b)[k] == a[k];
        ParseEachAt(a, parseWorkType, k);
      } else {
        assert (a + b)[k] == b[k - |a|];
        ParseEachAt(b, parseWorkType, k - |a|);
      }
    }
  }

  /** `parse_search_html_parallel`: rayon only schedules the per-item parses;
      the collect keeps document order and fails when any item fails. */
  function ParseSearchHtmlParallel(frags: seq<ItemFragment>, parseWorkType: string -> Option<WorkType>): (r: Result<seq<SearchProductItem>>)
    ensures r.Ok? ==> |r.value| == |frags|
  {
    Collect(ParseEach(frags, parseWorkType))
  }

  /** The bulk parse succeeds exactly when every fragment parses, with item `i`
      from fragment `i`; otherwise it fails with a failing fragment's error. */
  lemma BulkParse(frags: seq<ItemFragment>, parseWorkType: string -> Option<WorkType>)
    ensures var r := ParseSearchHtmlParallel(frags, parseWorkType);
      && (r.Ok? <==> forall i :: 0 <= i < |frags| ==> ParseSearchItemHtml(frags[i], parseWorkType).Ok?)
      && (r.Ok? ==> |r.value| == |frags|)
      && (r.Ok? ==> forall i :: 0 <= i < |frags| ==> ParseSearchItemHtml(frags[i], parseWorkType) == Ok(r.value[i]))
      && (r.Err? ==> exists i :: 0 <= i < |frags| && ParseSearchItemHtml(frags[i], parseWorkType) == Err(r.error))
  {
    var results := ParseEach(frags, parseWorkType);
    forall i | 0 <= i < |frags| ensures results[i] == ParseSearchItemHtml(frags[i], parseWorkType) {
      ParseEachAt(frags, parseWorkType, i);
    }
    CollectOk(results);
    if Collect(results).Err? {
      CollectErr(results);
    }
  }

  /** `parse_search_html`: the same rules applied item by item in one loop,
      returning at the first item that fails. It agrees with the bulk parse. */
  method ParseSearchHtml(frags: seq<ItemFragment>, parseWorkType: string -> Option<WorkType>)
    returns (r: Result<seq<SearchProductItem>>)
    ensures r == ParseSearchHtmlParallel(frags, parseWorkType)
  {
    var items: seq<SearchProductItem> := [];
    for i := 0 to |frags|
      invariant Collect(ParseEach(frags[..i], parseWorkType)) == Ok(items)
    {
      var item := ParseSearchItemHtml(frags[i], parseWorkType);
      CollectStep(frags, i, items, parseWorkType);
      if item.Err? {
        return Err(item.error);
      }
      items := items + [item.value];
    }
    assert frags[..|frags|] == frags;
    r := Ok(items);
  }

  /** One iteration of the sequential parse: the prefix grows by one item, or
      the whole page fails with this item's error. */
  lemma CollectStep(frags: seq<ItemFragment>, i: nat, items: seq<SearchProductItem>,
                    parseWorkType: string -> Option<WorkType>)
    requires i < |frags| && Collect(ParseEach(frags[..i], parseWorkType)) == Ok(items)
    ensures var item := ParseSearchItemHtml(frags[i], parseWorkType);
      if item.Ok? then Collect(ParseEach(frags[..i + 1], parseWorkType)) == Ok(items + [item.value])
      else ParseSearchHtmlParallel(frags, parseWorkType) == Err(item.error)
  {
    var item := ParseSearchItemHtml(frags[i], parseWorkType);
    PrefixStep(frags, i, parseWorkType);
    CollectSnoc(ParseEach(frags[..i], parseWorkType), item);
    if item.Err? {
      assert frags == frags[..i + 1] + frags[i + 1..];
      ParseEachConcat(frags[..i + 1], frags[i + 1..], parseWorkType);
      assert ParseEach(frags, parseWorkType)[..i + 1] == ParseEach(frags[..i + 1], parseWorkType);
      CollectPrefixErr(ParseEach(frags, parseWorkType), i + 1);
    }
  }

  /** One more fragment of the page's prefix. */
  lemma PrefixStep(frags: seq<ItemFragment>, i: nat, parseWorkType: string -> Option<WorkType>)
    requires i < |frags|
    ensures ParseEach(frags[..i + 1], parseWorkType) ==
      ParseEach(frags[..i], parseWorkType) + [ParseSearchItemHtml(frags[i], parseWorkType)]
  {
    assert frags[..i + 1] == frags[..i] + [frags[i]];
    ParseEachConcat(frags[..i], [frags[i]], parseWorkType);
    assert [frags[i]][1..] == [];
  }

  /** What the streaming parse hands to its callback: the items that parse, in order. */
  function StreamedItems(frags: seq<ItemFragment>, parseWorkType: string -> Option<WorkType>): (items: seq<SearchProductItem>)
    ensures |items| <= |frags|
  {
    Successes(ParseEach(frags, parseWorkType))
  }

  /** The stream delivers every item exactly when the bulk parse succeeds, and
      then delivers the same items; otherwise it delivers fewer. */
  lemma StreamVersusBulk(frags: seq<ItemFragment>, parseWorkType: string -> Option<WorkType>)
    ensures var bulk := ParseSearchHtmlParallel(frags, parseWorkType);
      && (bulk.Ok? <==> |StreamedItems(frags, parseWorkType)| == |frags|)
      && (bulk.Ok? ==> StreamedItems(frags, parseWorkType) == bulk.value)
      && (bulk.Err? ==> |StreamedItems(frags, parseWorkType)| < |frags|)
  {
    SuccessesVersusCollect(ParseEach(frags, parseWorkType));
  }

  /** One malformed item: the bulk parse fails with its error, the stream still
      delivers all the others. */
  lemma OneMalformedItem(good1: seq<ItemFragment>, bad: ItemFragment, good2: seq<ItemFragment>,
                         parseWorkType: string -> Option<WorkType>)
    requires ParseSearchHtmlParallel(good1, parseWorkType).Ok?
    requires ParseSearchHtmlParallel(good2, parseWorkType).Ok?
    requires ParseSearchItemHtml(bad, parseWorkType).Err?
    ensures ParseSearchHtmlParallel(good1 + [bad] + good2, parseWorkType) ==
      Err(ParseSearchItemHtml(bad, parseWorkType).error)
    ensures StreamedItems(good1 + [bad] + good2, parseWorkType) ==
      ParseSearchHtmlParallel(good1, parseWorkType).value + ParseSearchHtmlParallel(good2, parseWorkType).value
  {
    ParseEachAround(good1, bad, good2, parseWorkType);
    OneErrorBetween(ParseEach(good1, parseWorkType), ParseSearchItemHtml(bad, parseWorkType), ParseEach(good2, parseWorkType));
  }

  lemma ParseEachAround(good1: seq<ItemFragment>, bad: ItemFragment, good2: seq<ItemFragment>,
                        parseWorkType: string -> Option<WorkType>)
    ensures ParseEach(good1 + [bad] + good2, parseWorkType) ==
      ParseEach(good1, parseWorkType) + [ParseSearchItemHtml(bad, parseWorkType)] + ParseEach(good2, parseWorkType)
  {
    ParseEachConcat(good1 + [bad], good2, parseWorkType);
    ParseEachConcat(good1, [bad], parseWorkType);
    assert ParseEach([bad], parseWorkType) == [ParseSearchItemHtml(bad, parseWorkType)];
  }

  lemma OneErrorBetween<T>(r1: seq<Result<T>>, x: Result<T>, r2: seq<Result<T>>)
    requires Collect(r1).Ok? && Collect(r2).Ok? && x.Err?
    ensures Collect(r1 + [x] + r2) == Err(x.error)
    ensures Successes(r1 + [x] + r2) == Collect(r1).value + Collect(r2).value
  {
    CollectPastErr(r1, x, r2);
    SuccessesPastErr(r1, x, r2);
    SuccessesVersusCollect(r1);
    SuccessesVersusCollect(r2);
  }

  lemma CollectPastErr<T>(r1: seq<Result<T>>, x: Result<T>, r2: seq<Result<T>>)
    requires Collect(r1).Ok? && x.Err?
    ensures Collect(r1 + [x] + r2) == Err(x.error)
  {
    var all := r1 + [x] + r2;
    assert all[..|r1| + 1] == r1 + [x];
    CollectSnoc(r1, x);
    CollectPrefixErr(all, |r1| + 1);
  }

  lemma SuccessesPastErr<T>(r1: seq<Result<T>>, x: Result<T>, r2: seq<Result<T>>)
    requires x.Err?
    ensures Successes(r1 + [x] + r2) == Successes(r1) + Successes(r2)
  {
    SuccessesConcat(r1 + [x], r2);
    SuccessesSnoc(r1, x);
  }

  /** One iteration of the streaming loop: the callback sees this item if it parses. */
  lemma StreamStep(frags: seq<ItemFragment>, i: nat, parseWorkType: string -> Option<WorkType>)
    requires i < |frags|
    ensures var item := ParseSearchItemHtml(frags[i], parseWorkType);
      StreamedItems(frags[..i + 1], parseWorkType) ==
        StreamedItems(frags[..i], parseWorkType) + (if item.Ok? then [item.value] else [])
  {
    PrefixStep(frags, i, parseWorkType);
    SuccessesSnoc(ParseEach(frags[..i], parseWorkType), ParseSearchItemHtml(frags[i], parseWorkType));
  }

  // ---------------------------------------------------------------------------
  // The search client

  /** The `SearchAjaxResult` envelope: the result HTML and `page_info.count`. */
  datatype Envelope = Envelope(searchResult: string, count: i32)

  /** What the search flow takes as given: the JSON decoder of the envelope,
      the selection of item fragments from the result HTML, and `WorkType`'s parser. */
  datatype Site = Site(
    decodeEnvelope: string -> Option<Envelope>,
    selectItems: string -> seq<ItemFragment>,
    parseWorkType: string -> Option<WorkType>)

  datatype SearchResult = SearchResult(products: seq<SearchProductItem>, count: i32, queryPath: string)

  /** The clock readings one search consumes: those of the fetch, and the
      result cache's lookup and insert instants. */
  datatype SearchWorld = SearchWorld(fetch: FetchWorld, lookupAt: nat, storeAt: nat)

  /** The fetched body through `serde_json::from_str`; `?` turns a decoding failure into `SerdeJson`. */
  function DecodeEnvelope(site: Site, fetched: Result<string>): (r: Result<Envelope>)
    ensures fetched.Err? ==> r == Err(fetched.error)
    ensures fetched.Ok? ==> match site.decodeEnvelope(fetched.value)
      case None => r == Err(SerdeJson)
      case Some(env) => r == Ok(env)
  {
    var body :- fetched;
    match site.decodeEnvelope(body)
    case None => Err(SerdeJson)
    case Some(env) => Ok(env)
  }

  /** The item fragments (`#search_result_img_box > li`) of the envelope's HTML. */
  function PageItems(site: Site, env: Envelope): seq<ItemFragment>
  {
    site.selectItems(env.searchResult)
  }

  /** The bulk parse of the envelope's page. */
  function ParsePage(site: Site, env: Envelope): Result<seq<SearchProductItem>>
  {
    ParseSearchHtmlParallel(PageItems(site, env), site.parseWorkType)
  }

  /** A result-cache hit: the cached products, with the count of a fresh fetch. */
  function CachedResult(site: Site, fetched: Result<string>, products: seq<SearchProductItem>, path: string): (r: Result<SearchResult>)
    ensures r.Ok? <==> DecodeEnvelope(site, fetched).Ok?
    ensures r.Ok? ==> r.value == SearchResult(products, DecodeEnvelope(site, fetched).value.count, path)
    ensures r.Err? ==> r.error == DecodeEnvelope(site, fetched).error
  {
    var env :- DecodeEnvelope(site, fetched);
    Ok(SearchResult(products, env.count, path))
  }

  /** A result-cache miss: the page's items through the bulk parse. */
  function FreshResult(site: Site, fetched: Result<string>, path: string): (r: Result<SearchResult>)
    ensures r.Ok? ==> r.value.queryPath == path
  {
    var env :- DecodeEnvelope(site, fetched);
    var products :- ParsePage(site, env);
    Ok(SearchResult(products, env.count, path))
  }

  /** A miss succeeds exactly when the envelope decodes and every item of its
      page parses; the result carries those items, the page's count and the path. */
  lemma FreshResultSpec(site: Site, fetched: Result<string>, path: string)
    ensures var r := FreshResult(site, fetched, path);
      var env := DecodeEnvelope(site, fetched);
      && (env.Err? ==> r == Err(env.error))
      && (env.Ok? ==>
            var bulk := ParsePage(site, env.value);
            && (bulk.Err? ==> r == Err(bulk.error))
            && (bulk.Ok? ==> r == Ok(SearchResult(bulk.value, env.value.count, path))))
  {
  }

  // ---------------------------------------------------------------------------
  // `search_product` and `search_products_batch` on values

  /** The parts of a search client no search changes: the client's settings
      and the result cache's capacity and TTL. */
  datatype SearchConfig = SearchConfig(client: ClientConfig, capacity: nat, ttl: nat)

  /** What searches change: the client's state and the result cache's recency list. */
  datatype SearchState = SearchState(client: ClientState, results: seq<Entry<seq<SearchProductItem>>>)

  predicate SearchFits(k: SearchConfig, s: SearchState)
  {
    Fits(k.client, s.client) && 0 < k.capacity && |s.results| <= k.capacity
  }

  /** What one search returns, the body `get` gave it, and the state it leaves. */
  datatype SearchOutcome = SearchOutcome(result: Result<SearchResult>, fetched: Result<string>, state: SearchState)

  /** `search_product` as a function of the state it starts from: the page is
      always fetched through `get`; a result-cache hit keeps the cached
      products, a miss parses the page and caches its products when all parse. */
  function SearchSpec(k: SearchConfig, s: SearchState, path: string, site: Site, w: SearchWorld): (o: SearchOutcome)
    requires SearchFits(k, s) && Covers(k.client.retry, w.fetch)
    ensures SearchFits(k, o.state)
    ensures o.fetched == GetSpec(k.client, s.client, path, w.fetch).result
    ensures o.state.client == GetSpec(k.client, s.client, path, w.fetch).state
    ensures o.result.Ok? ==> o.fetched.Ok? && o.result.value.queryPath == path
  {
    var hit := LookupResult(s.results, path, w.lookupAt);
    var results := AfterLookup(s.results, path, w.lookupAt);
    var got := GetSpec(k.client, s.client, path, w.fetch);
    if hit.Some? then
      SearchOutcome(CachedResult(site, got.result, hit.value, path), got.result, SearchState(got.state, results))
    else
      var r := FreshResult(site, got.result, path);
      SearchOutcome(r, got.result, SearchState(got.state,
        if r.Ok? then Put(results, k.capacity, Entry(path, r.value.products, w.storeAt + k.ttl)) else results))
  }

  lemma SearchSpecOnHit(k: SearchConfig, s: SearchState, path: string, site: Site, w: SearchWorld)
    requires SearchFits(k, s) && Covers(k.client.retry, w.fetch)
    requires LookupResult(s.results, path, w.lookupAt).Some?
    ensures var got := GetSpec(k.client, s.client, path, w.fetch);
      SearchSpec(k, s, path, site, w) == SearchOutcome(
        CachedResult(site, got.result, LookupResult(s.results, path, w.lookupAt).value, path), got.result,
        SearchState(got.state, AfterLookup(s.results, path, w.lookupAt)))
  {
  }

  lemma SearchSpecOnMiss(k: SearchConfig, s: SearchState, path: string, site: Site, w: SearchWorld)
    requires SearchFits(k, s) && Covers(k.client.retry, w.fetch)
    requires LookupResult(s.results, path, w.lookupAt).None?
    ensures var got := GetSpec(k.client, s.client, path, w.fetch);
      var r := FreshResult(site, got.result, path);
      var results := AfterLookup(s.results, path, w.lookupAt);
      SearchSpec(k, s, path, site, w) == SearchOutcome(r, got.result, SearchState(got.state,
        if r.Ok? then Put(results, k.capacity, Entry(path, r.value.products, w.storeAt + k.ttl)) else results))
  {
  }

  /** A result-cache hit, assembled from its parts, is what `SearchSpec` says. */
  lemma SearchHitParts(k: SearchConfig, s: SearchState, path: string, site: Site, w: SearchWorld,
                       products: seq<SearchProductItem>, r: Result<SearchResult>, fetched: Result<string>,
                       after: SearchState)
    requires SearchFits(k, s) && Covers(k.client.retry, w.fetch)
    requires LookupResult(s.results, path, w.lookupAt) == Some(products)
    requires GetOutcome(fetched, after.client) == GetSpec(k.client, s.client, path, w.fetch)
    requires after.results == AfterLookup(s.results, path, w.lookupAt)
    requires r == CachedResult(site, fetched, products, path)
    ensures SearchOutcome(r, fetched, after) == SearchSpec(k, s, path, site, w)
  {
    SearchSpecOnHit(k, s, path, site, w);
  }

  /** A result-cache miss, assembled from its parts, is what `SearchSpec` says. */
  lemma SearchMissParts(k: SearchConfig, s: SearchState, path: string, site: Site, w: SearchWorld,
                        r: Result<SearchResult>, fetched: Result<string>, after: SearchState)
    requires SearchFits(k, s) && Covers(k.client.retry, w.fetch)
    requires LookupResult(s.results, path, w.lookupAt).None?
    requires GetOutcome(fetched, after.client) == GetSpec(k.client, s.client, path, w.fetch)
    requires r == FreshResult(site, fetched, path)
    requires var results := AfterLookup(s.results, path, w.lookupAt);
      after.results == if r.Ok? then Put(results, k.capacity, Entry(path, r.value.products, w.storeAt + k.ttl)) else results
    ensures SearchOutcome(r, fetched, after) == SearchSpec(k, s, path, site, w)
  {
    SearchSpecOnMiss(k, s, path, site, w);
  }

  /** The instant up to which a successful search's products stay in the
      result cache: the stored entry's expiry on a hit, `ttl` after the store
      instant on a miss. */
  function ResultsCachedUntil(k: SearchConfig, s: SearchState, path: string, w: SearchWorld): int
  {
    if LookupResult(s.results, path, w.lookupAt).Some? then Find(s.results, path).value.expiresAt
    else w.storeAt + k.ttl
  }

  /** After a successful search its products answer every result-cache lookup
      of the query path up to `ResultsCachedUntil`. */
  lemma ProductsCachedAfterSearch(k: SearchConfig, s: SearchState, path: string, site: Site, w: SearchWorld, t: int)
    requires SearchFits(k, s) && DistinctKeys(s.results) && Covers(k.client.retry, w.fetch)
    requires SearchSpec(k, s, path, site, w).result.Ok? && t <= ResultsCachedUntil(k, s, path, w)
    ensures var o := SearchSpec(k, s, path, site, w);
      LookupResult(o.state.results, path, t) == Some(o.result.value.products) && DistinctKeys(o.state.results)
  {
    if LookupResult(s.results, path, w.lookupAt).Some? {
      ProductsCachedOnHit(k, s, path, site, w, t);
    } else {
      ProductsCachedOnMiss(k, s, path, site, w, t);
    }
  }

  lemma ProductsCachedOnHit(k: SearchConfig, s: SearchState, path: string, site: Site, w: SearchWorld, t: int)
    requires SearchFits(k, s) && DistinctKeys(s.results) && Covers(k.client.retry, w.fetch)
    requires LookupResult(s.results, path, w.lookupAt).Some? && t <= Find(s.results, path).value.expiresAt
    requires SearchSpec(k, s, path, site, w).result.Ok?
    ensures var o := SearchSpec(k, s, path, site, w);
      LookupResult(o.state.results, path, t) == Some(o.result.value.products) && DistinctKeys(o.state.results)
  {
    var after := AfterLookup(s.results, path, w.lookupAt);
    AfterLookupKeepsDistinct(s.results, path, w.lookupAt);
    SearchSpecOnHit(k, s, path, site, w);
    FindLast(after, Find(s.results, path).value);
  }

  lemma ProductsCachedOnMiss(k: SearchConfig, s: SearchState, path: string, site: Site, w: SearchWorld, t: int)
    requires SearchFits(k, s) && DistinctKeys(s.results) && Covers(k.client.retry, w.fetch)
    requires LookupResult(s.results, path, w.lookupAt).None? && t <= w.storeAt + k.ttl
    requires SearchSpec(k, s, path, site, w).result.Ok?
    ensures var o := SearchSpec(k, s, path, site, w);
      LookupResult(o.state.results, path, t) == Some(o.result.value.products) && DistinctKeys(o.state.results)
  {
    var after := AfterLookup(s.results, path, w.lookupAt);
    AfterLookupKeepsDistinct(s.results, path, w.lookupAt);
    SearchSpecOnMiss(k, s, path, site, w);
    var got := GetSpec(k.client, s.client, path, w.fetch);
    var products := FreshResult(site, got.result, path).value.products;
    InsertThenGet(after, k.capacity, path, products, w.storeAt, k.ttl, t);
    PutKeepsValid(after, k.capacity, Entry(path, products, w.storeAt + k.ttl));
  }

  /** Repeating a successful search while its products are cached returns the
      same products, whatever the new page holds: only the count is fetched again. */
  lemma SearchRepeatKeepsProducts(k: SearchConfig, s: SearchState, path: string, site: Site,
                                  w1: SearchWorld, w2: SearchWorld)
    requires SearchFits(k, s) && DistinctKeys(s.results)
    requires Covers(k.client.retry, w1.fetch) && Covers(k.client.retry, w2.fetch)
    requires SearchSpec(k, s, path, site, w1).result.Ok?
    requires w2.lookupAt <= ResultsCachedUntil(k, s, path, w1)
    ensures var o1 := SearchSpec(k, s, path, site, w1);
      var o2 := SearchSpec(k, o1.state, path, site, w2);
      && o2.result == CachedResult(site, o2.fetched, o1.result.value.products, path)
      && (o2.result.Ok? ==> o2.result.value.products == o1.result.value.products)
  {
    var o1 := SearchSpec(k, s, path, site, w1);
    ProductsCachedAfterSearch(k, s, path, site, w1, w2.lookupAt);
    SearchSpecOnHit(k, o1.state, path, site, w2);
  }

  /** What a batch returns and the state it leaves. */
  datatype BatchOutcome = BatchOutcome(result: Result<seq<SearchResult>>, state: SearchState)

  /** Every world has a clock reading and an outcome for each attempt. */
  predicate AllCovered(k: SearchConfig, worlds: seq<SearchWorld>)
  {
    forall i :: 0 <= i < |worlds| ==> Covers(k.client.retry, worlds[i].fetch)
  }

  /** `search_products_batch` from query `i` on, one search after another,
      each starting from the state the previous one left, stopping at the
      first failure. */
  function BatchFrom(k: SearchConfig, s: SearchState, queries: seq<string>, site: Site,
                     worlds: seq<SearchWorld>, i: nat): (o: BatchOutcome)
    requires SearchFits(k, s) && i <= |queries| == |worlds| && AllCovered(k, worlds)
    decreases |queries| - i
    ensures SearchFits(k, o.state)
    ensures o.result.Ok? ==> |o.result.value| == |queries| - i
  {
    if i == |queries| then BatchOutcome(Ok([]), s)
    else
      var one := SearchSpec(k, s, queries[i], site, worlds[i]);
      if one.result.Err? then BatchOutcome(Err(one.result.error), one.state)
      else
        var rest := BatchFrom(k, one.state, queries, site, worlds, i + 1);
        if rest.result.Err? then rest
        else BatchOutcome(Ok([one.result.value] + rest.result.value), rest.state)
  }

  /** Result `j` is for query `i + j`. */
  predicate AnswersFrom(results: seq<SearchResult>, queries: seq<string>, i: nat)
  {
    && i + |results| <= |queries|
    && forall j :: 0 <= j < |results| ==> results[j].queryPath == queries[i + j]
  }

  /** A successful batch answers the queries in order: result `j` is for query `i + j`. */
  lemma {:induction false} BatchPaths(k: SearchConfig, s: SearchState, queries: seq<string>, site: Site,
                                      worlds: seq<SearchWorld>, i: nat)
    requires SearchFits(k, s) && i <= |queries| == |worlds| && AllCovered(k, worlds)
    decreases |queries| - i
    ensures var o := BatchFrom(k, s, queries, site, worlds, i);
      o.result.Ok? ==> AnswersFrom(o.result.value, queries, i)
  {
    if i < |queries| {
      var one := SearchSpec(k, s, queries[i], site, worlds[i]);
      BatchPaths(k, one.state, queries, site, worlds, i + 1);
      BatchPathsStep(k, s, queries, site, worlds, i);
    }
  }

  /** If the rest of the batch answers its queries in order, so does the batch from query `i`. */
  lemma BatchPathsStep(k: SearchConfig, s: SearchState, queries: seq<string>, site: Site,
                       worlds: seq<SearchWorld>, i: nat)
    requires SearchFits(k, s) && i < |queries| == |worlds| && AllCovered(k, worlds)
    requires var one := SearchSpec(k, s, queries[i], site, worlds[i]);
      var rest := BatchFrom(k, one.state, queries, site, worlds, i + 1);
      rest.result.Ok? ==> AnswersFrom(rest.result.value, queries, i + 1)
    ensures var o := BatchFrom(k, s, queries, site, worlds, i);
      o.result.Ok? ==> AnswersFrom(o.result.value, queries, i)
  {
    if BatchFrom(k, s, queries, site, worlds, i).result.Ok? {
      var one := SearchSpec(k, s, queries[i], site, worlds[i]);
      BatchFromOk(k, s, queries, site, worlds, i);
      ConsPaths(one.result.value, BatchFrom(k, one.state, queries, site, worlds, i + 1).result.value, queries, i);
    }
  }

  /** A successful batch from query `i` is that query's result followed by the rest's. */
  lemma BatchFromOk(k: SearchConfig, s: SearchState, queries: seq<string>, site: Site,
                    worlds: seq<SearchWorld>, i: nat)
    requires SearchFits(k, s) && i < |queries| == |worlds| && AllCovered(k, worlds)
    requires BatchFrom(k, s, queries, site, worlds, i).result.Ok?
    ensures var one := SearchSpec(k, s, queries[i], site, worlds[i]);
      var rest := BatchFrom(k, one.state, queries, site, worlds, i + 1);
      && one.result.Ok? && one.result.value.queryPath == queries[i] && rest.result.Ok?
      && BatchFrom(k, s, queries, site, worlds, i).result.value == [one.result.value] + rest.result.value
  {
  }

  lemma ConsPaths(x: SearchResult, rest: seq<SearchResult>, queries: seq<string>, i: nat)
    requires i < |queries| && x.queryPath == queries[i] && AnswersFrom(rest, queries, i + 1)
    ensures AnswersFrom([x] + rest, queries, i)
  {
    var xs := [x] + rest;
    forall j | 0 <= j < |xs| ensures xs[j].queryPath == queries[i + j] {
      if j == 0 {
        assert xs[0] == x;
      } else {
        assert xs[j] == rest[j - 1];
        assert rest[j - 1].queryPath == queries[(i + 1) + (j - 1)];
      }
    }
    assert AnswersFrom(xs, queries, i);
  }

  /** A batch of one query is that query's search. */
  lemma BatchOfOne(k: SearchConfig, s: SearchState, q: string, site: Site, w: SearchWorld)
    requires SearchFits(k, s) && Covers(k.client.retry, w.fetch)
    ensures var one := SearchSpec(k, s, q, site, w);
      var o := BatchFrom(k, s, [q], site, [w], 0);
      && o.state == one.state
      && o.result == if one.result.Ok? then Ok([one.result.value]) else Err(one.result.error)
  {
    var one := SearchSpec(k, s, q, site, w);
    if one.result.Ok? {
      assert BatchFrom(k, one.state, [q], site, [w], 1) == BatchOutcome(Ok([]), one.state);
      assert [one.result.value] + [] == [one.result.value];
    }
  }

  /** The results gathered so far in front of the outcome of the rest. */
  function Prepend(done: seq<SearchResult>, o: BatchOutcome): BatchOutcome
  {
    if o.result.Ok? then BatchOutcome(Ok(done + o.result.value), o.state) else o
  }

  lemma PrependNothing(o: BatchOutcome)
    ensures Prepend([], o) == o
  {
    if o.result.Ok? {
      assert [] + o.result.value == o.result.value;
    }
  }

  /** One more query moves from the rest of the batch to what has been gathered. */
  lemma BatchStep(k: SearchConfig, s: SearchState, queries: seq<string>, site: Site,
                  worlds: seq<SearchWorld>, i: nat, done: seq<SearchResult>)
    requires SearchFits(k, s) && i < |queries| == |worlds| && AllCovered(k, worlds)
    ensures var one := SearchSpec(k, s, queries[i], site, worlds[i]);
      Prepend(done, BatchFrom(k, s, queries, site, worlds, i)) ==
        if one.result.Err? then BatchOutcome(Err(one.result.error), one.state)
        else Prepend(done + [one.result.value], BatchFrom(k, one.state, queries, site, worlds, i + 1))
  {
    var one := SearchSpec(k, s, queries[i], site, worlds[i]);
    if one.result.Ok? {
      var rest := BatchFrom(k, one.state, queries, site, worlds, i + 1);
      if rest.result.Ok? {
        assert done + ([one.result.value] + rest.result.value) == (done + [one.result.value]) + rest.result.value;
      }
    }
  }

  class SearchClient {
    const c: DlsiteClient
    /** `result_cache`: parsed products by query path. */
    const resultCache: GenericCache<seq<SearchProductItem>>

    ghost predicate Valid()
      reads this, c, c.cache, resultCache
    {
      c.Valid() && resultCache.Valid() && resultCache as object != c.cache as object
    }

    /** `SearchClient::new`: an empty result cache of 100 entries living an hour. */
    constructor (c: DlsiteClient)
      requires c.Valid()
      ensures Valid() && this.c == c && fresh(resultCache)
      ensures resultCache.entries == [] && resultCache.capacity == 100 && resultCache.ttl == 3_600_000
    {
      this.c := c;
      resultCache := new GenericCache(100, 3_600_000);
    }

    ghost function Config(): SearchConfig
      reads this, c, c.cache, resultCache
    {
      SearchConfig(c.Config(), resultCache.capacity, resultCache.ttl)
    }

    ghost function State(): SearchState
      reads this, c, c.cache, resultCache
    {
      SearchState(c.State(), resultCache.entries)
    }

    /** `search_product`: on a result-cache hit the cached products are kept
        and only the count is fetched again; on a miss the page is parsed and
        its products cached under the query path. `fetched` is what the
        client's `get` returned. */
    method SearchProduct(queryPath: string, site: Site, w: SearchWorld)
      returns (r: Result<SearchResult>, fetched: Result<string>)
      requires Valid() && Covers(c.retryConfig, w.fetch)
      modifies c, c.cache, resultCache
      ensures Valid() && Config() == old(Config())
      ensures SearchOutcome(r, fetched, State()) == SearchSpec(Config(), old(State()), queryPath, site, w)
    {
      ghost var k, start := Config(), State();
      var cached := resultCache.Get(queryPath, w.lookupAt);
      if cached.Some? {
        r, fetched := ServeHit(queryPath, cached.value, site, w, k, start);
      } else {
        r, fetched := ServeMiss(queryPath, site, w, k, start);
      }
    }

    /** A result-cache hit: the page is fetched again for its count only. */
    method ServeHit(path: string, products: seq<SearchProductItem>, site: Site, w: SearchWorld,
                    ghost k: SearchConfig, ghost start: SearchState)
      returns (r: Result<SearchResult>, fetched: Result<string>)
      requires Valid() && Config() == k && SearchFits(k, start) && Covers(k.client.retry, w.fetch)
      requires c.State() == start.client && LookupResult(start.results, path, w.lookupAt) == Some(products)
      requires resultCache.entries == AfterLookup(start.results, path, w.lookupAt)
      modifies c, c.cache
      ensures Valid() && Config() == k
      ensures SearchOutcome(r, fetched, State()) == SearchSpec(k, start, path, site, w)
    {
      // Line 120: the client's `get` of the query path.
      fetched := Fetch(path, w.fetch, k.client, start.client);
      r := CachedResult(site, fetched, products, path);
      SearchHitParts(k, start, path, site, w, products, r, fetched, State());
    }

    /** A result-cache miss: fetch, decode, parse every item and cache the
        products when all of them parse. */
    method ServeMiss(path: string, site: Site, w: SearchWorld, ghost k: SearchConfig, ghost start: SearchState)
      returns (r: Result<SearchResult>, fetched: Result<string>)
      requires Valid() && Config() == k && SearchFits(k, start) && Covers(k.client.retry, w.fetch)
      requires c.State() == start.client && LookupResult(start.results, path, w.lookupAt).None?
      requires resultCache.entries == AfterLookup(start.results, path, w.lookupAt)
      modifies c, c.cache, resultCache
      ensures Valid() && Config() == k
      ensures SearchOutcome(r, fetched, State()) == SearchSpec(k, start, path, site, w)
    {
      // Line 133: the client's `get` of the query path.
      fetched := Fetch(path, w.fetch, k.client, start.client);
      r := ParseFetched(path, site, w, k, start, fetched);
    }

    /** The miss path once the page is in hand: the result `SearchSpec` gives
        for the fetched body, with the products cached when all of them parse. */
    method ParseFetched(path: string, site: Site, w: SearchWorld, ghost k: SearchConfig, ghost start: SearchState,
                        fetched: Result<string>)
      returns (r: Result<SearchResult>)
      requires Valid() && Config() == k && SearchFits(k, start) && Covers(k.client.retry, w.fetch)
      requires LookupResult(start.results, path, w.lookupAt).None?
      requires resultCache.entries == AfterLookup(start.results, path, w.lookupAt)
      requires GetOutcome(fetched, c.State()) == GetSpec(k.client, start.client, path, w.fetch)
      modifies resultCache
      ensures Valid() && Config() == k
      ensures SearchOutcome(r, fetched, State()) == SearchSpec(k, start, path, site, w)
    {
      r := CachePage(path, site, fetched, w.storeAt, k, resultCache.entries);
      SearchMissParts(k, start, path, site, w, r, fetched, State());
    }

    /** The miss path once the page is in hand: decode, parse every item and
        cache the products when all of them parse. */
    method CachePage(path: string, site: Site, fetched: Result<string>, storeAt: nat,
                     ghost k: SearchConfig, ghost results: seq<Entry<seq<SearchProductItem>>>)
      returns (r: Result<SearchResult>)
      requires resultCache.Valid() && resultCache.entries == results
      requires resultCache.capacity == k.capacity && resultCache.ttl == k.ttl
      modifies resultCache
      ensures resultCache.Valid()
      ensures r == FreshResult(site, fetched, path)
      ensures resultCache.entries == if r.Ok? then
          Put(results, k.capacity, Entry(path, r.value.products, storeAt + k.ttl))
        else results
    {
      var env := DecodeEnvelope(site, fetched);
      if env.Err? {
        return Err(env.error);
      }
      var products := ParsePage(site, env.value);
      if products.Err? {
        return Err(products.error);
      }
      resultCache.Insert(path, products.value, storeAt);
      r := Ok(SearchResult(products.value, env.value.count, path));
    }

    /** The client's `get` of a query path; the result cache is not touched. */
    method Fetch(path: string, w: FetchWorld, ghost k: ClientConfig, ghost s: ClientState) returns (fetched: Result<string>)
      requires Valid() && c.Config() == k && c.State() == s && Covers(k.retry, w)
      modifies c, c.cache
      ensures Valid() && c.Config() == k
      ensures GetOutcome(fetched, c.State()) == GetSpec(k, s, path, w)
    {
      var waits, backoffs;
      fetched, waits, backoffs := c.Get(path, w);
    }

    /** `search_product_stream`: `delivered` records the callback's calls. */
    method SearchProductStream(queryPath: string, site: Site, w: FetchWorld)
      returns (r: Result<i32>, delivered: seq<SearchProductItem>, fetched: Result<string>)
      requires Valid() && Covers(c.retryConfig, w)
      modifies c, c.cache
      ensures Valid() && c.retryConfig == old(c.retryConfig)
      ensures GetOutcome(fetched, c.State()) == GetSpec(c.Config(), old(c.State()), queryPath, w)
      ensures match DecodeEnvelope(site, fetched)
        case Err(e) => r == Err(e) && delivered == []
        case Ok(env) =>
          r == Ok(env.count) && delivered == StreamedItems(PageItems(site, env), site.parseWorkType)
    {
      fetched := Fetch(queryPath, w, c.Config(), c.State());
      delivered := [];
      var env := DecodeEnvelope(site, fetched);
      if env.Err? {
        return Err(env.error), [], fetched;
      }
      var frags := PageItems(site, env.value);
      ghost var fetchedState := c.State();
      for i := 0 to |frags|
        invariant Valid() && c.retryConfig == old(c.retryConfig) && c.State() == fetchedState
        invariant delivered == StreamedItems(frags[..i], site.parseWorkType)
      {
        var item := ParseSearchItemHtml(frags[i], site.parseWorkType);
        StreamStep(frags, i, site.parseWorkType);
        if item.Ok? {
          delivered := delivered + [item.value];
        }
      }
      assert frags[..|frags|] == frags;
      r := Ok(env.value.count);
    }

    /** `search_products_batch`: one search per query, results in query order,
        failing as soon as one search fails. */
    method SearchProductsBatch(queries: seq<string>, site: Site, worlds: seq<SearchWorld>)
      returns (r: Result<seq<SearchResult>>)
      requires Valid() && |worlds| == |queries| && AllCovered(Config(), worlds)
      modifies c, c.cache, resultCache
      ensures Valid() && Config() == old(Config())
      ensures BatchOutcome(r, State()) == BatchFrom(Config(), old(State()), queries, site, worlds, 0)
    {
      var results: seq<SearchResult> := [];
      ghost var k := Config();
      PrependNothing(BatchFrom(k, State(), queries, site, worlds, 0));
      for i := 0 to |queries|
        invariant Valid() && Config() == k
        invariant BatchFrom(k, old(State()), queries, site, worlds, 0) ==
          Prepend(results, BatchFrom(k, State(), queries, site, worlds, i))
      {
        ghost var before := State();
        BatchStep(k, before, queries, site, worlds, i, results);
        var one, fetched := SearchProduct(queries[i], site, worlds[i]);
        if one.Err? {
          return Err(one.error);
        }
        results := results + [one.value];
      }
      assert results + [] == results;
      r := Ok(results);
    }
  }
}
