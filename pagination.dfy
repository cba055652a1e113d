/** The paged lists of admin.py: page arithmetic, the slice shown, the
    navigation row of build_pagination_keyboard, and the page numbers carried
    in callback data. */
module Pagination {
  import opened Wrappers
  import opened PyStr

  /** ITEMS_PER_PAGE (admin.py:36). */
  const PageSize: nat := 5

  // ---------------------------------------------------------------------
  // Page arithmetic (admin.py:268-274, 495-501)
  // ---------------------------------------------------------------------

  /** `ceil(n / ITEMS_PER_PAGE)`. */
  function TotalPages(n: nat): (t: nat)
    ensures n > 0 ==> t >= 1 && PageSize * (t - 1) < n <= PageSize * t
    ensures n == 0 ==> t == 0
  {
    (n + PageSize - 1) / PageSize
  }

  /** A requested page at or past the last is moved to the last; anything
      below it, negative pages included, is kept. */
  function ClampPage(page: int, totalPages: nat): (r: int)
    ensures r <= page
    ensures totalPages >= 1 ==> r <= totalPages - 1
    ensures page < totalPages ==> r == page
    ensures totalPages >= 1 ==> r == page || r == totalPages - 1
  {
    if page >= totalPages then totalPages - 1 else page
  }

  /** One bound of a Python slice on a sequence of length n: a negative bound
      counts from the end, and the result is kept within [0, n]. */
  function SliceBound(i: int, n: nat): (r: nat)
    ensures r <= n
    ensures 0 <= i <= n ==> r == i
    ensures i < 0 && i + n >= 0 ==> r == i + n
    ensures i + n < 0 ==> r == 0
    ensures i > n ==> r == n
  {
    if i < 0 then (if i + n < 0 then 0 else i + n) else if i > n then n else i
  }

  /** `items[lo:hi]`. */
  function PySlice<T>(items: seq<T>, lo: int, hi: int): (r: seq<T>)
  {
    var a := SliceBound(lo, |items|);
    var b := SliceBound(hi, |items|);
    if a < b then items[a..b] else []
  }

  /** `items[page * 5 : page * 5 + 5]`. */
  function Window<T>(items: seq<T>, page: int): seq<T> {
    PySlice(items, page * PageSize, page * PageSize + PageSize)
  }

  /** Whatever the page, a window holds at most five items, each an item of
      the list. */
  lemma WindowAtMostFive<T>(items: seq<T>, page: int)
    ensures |Window(items, page)| <= PageSize
    ensures forall x :: x in Window(items, page) ==> x in items
  {
    var n := |items|;
    var lo := page * PageSize;
    var a := SliceBound(lo, n);
    var b := SliceBound(lo + PageSize, n);
    if a < b {
      assert b - a <= PageSize;
    }
  }

  /** A page in range shows the items from page·5 up to five further, or to
      the end of the list, and at least one of them. */
  lemma WindowInRange<T>(items: seq<T>, page: int)
    requires 0 <= page < TotalPages(|items|)
    ensures var lo := page * PageSize;
            var hi := if lo + PageSize <= |items| then lo + PageSize else |items|;
            lo < hi && Window(items, page) == items[lo..hi]
  {
  }

  /** The page actually shown for a request of page `requested` on a list of
      n > 0 items is one the list has, unless the request was negative. */
  lemma ClampedPageShowsSomething<T>(items: seq<T>, requested: int)
    requires |items| > 0 && requested >= 0
    ensures var page := ClampPage(requested, TotalPages(|items|));
            0 <= page < TotalPages(|items|) && |Window(items, page)| >= 1
  {
    var page := ClampPage(requested, TotalPages(|items|));
    WindowInRange(items, page);
  }

  /** Page -1 is not clamped and shows nothing: its slice `[-5:0]` is empty. */
  lemma PageMinusOneIsEmpty<T>(items: seq<T>)
    ensures Window(items, -1) == []
  {
  }

  /** Page -2 of a list of ten shows the first five items, the slice `[-10:-5]`. */
  lemma PageMinusTwoOfTen<T>(items: seq<T>)
    requires |items| == 10
    ensures Window(items, -2) == items[..5]
  {
  }

  /** The pages from `from` on, concatenated. */
  function PagesFrom<T>(items: seq<T>, from: nat): seq<T>
    decreases TotalPages(|items|) - from
  {
    if from >= TotalPages(|items|) then [] else Window(items, from) + PagesFrom(items, from + 1)
  }

  /** Walking the pages in order shows every item once, in order. */
  lemma {:induction false} PagesCoverItems<T>(items: seq<T>)
    ensures PagesFrom(items, 0) == items
  {
    PagesFromSuffix(items, 0);
  }

  lemma {:induction false} PagesFromSuffix<T>(items: seq<T>, from: nat)
    requires from <= TotalPages(|items|)
    ensures from * PageSize <= |items| || from == TotalPages(|items|)
    ensures PagesFrom(items, from) == if from * PageSize <= |items| then items[from * PageSize..] else []
    decreases TotalPages(|items|) - from
  {
    if from < TotalPages(|items|) {
      PagesFromSuffix(items, from + 1);
      WindowInRange(items, from);
    } else if from * PageSize <= |items| {
      assert items[from * PageSize..] == [];
    }
  }

  // ---------------------------------------------------------------------
  // Page numbers in callback data (admin.py:255-258, 492-493)
  // ---------------------------------------------------------------------

  /** `int(data.split("_")[-1])`, or 0 when that raises. */
  function ParsePage(data: string): int {
    ParseInt(Last(Split(data, '_'))).GetOr(0)
  }

  /** A prefix ending in '_' followed by `str(k)` hands back k. */
  lemma ParsePageRoundTrip(word: string, k: int)
    ensures ParsePage(word + "_" + IntToStr(k)) == k
  {
    var digits := IntToStr(k);
    IntToStrNoUnderscore(k);
    assert word + "_" + digits == word + ['_'] + digits;
    SplitAt(word, digits, '_');
    SplitNoSep(digits, '_');
    IntRoundTrip(k);
  }

  /** A suffix that is not an integer falls back to page 0. */
  lemma ParsePageDefault(word: string, suffix: string)
    requires '_' !in suffix && ParseInt(suffix) == None
    ensures ParsePage(word + "_" + suffix) == 0
  {
    assert word + "_" + suffix == word + ['_'] + suffix;
    SplitAt(word, suffix, '_');
    SplitNoSep(suffix, '_');
  }

  // ---------------------------------------------------------------------
  // The navigation row (admin.py:148-167)
  // ---------------------------------------------------------------------

  datatype Button = Button(text: string, data: string)

  const BackText: string := "⬅ Назад"
  const ForwardText: string := "Вперед ➡"

  /** The middle label: `f"{page + 1}/{total_pages}"`. */
  function PageLabel(page: int, totalPages: int): string {
    IntToStr(page + 1) + "/" + IntToStr(totalPages)
  }

  /** build_pagination_keyboard: a back button to page-1 exactly when
      page > 0, always the page label, and a forward button to page+1 exactly
      when page < total_pages - 1, in that order. */
  method BuildPaginationKeyboard(page: int, totalPages: int, prefix: string) returns (row: seq<Button>)
    ensures |row| == 1 + (if page > 0 then 1 else 0) + (if page < totalPages - 1 then 1 else 0)
    ensures page > 0 ==> row[0] == Button(BackText, prefix + IntToStr(page - 1))
    ensures row[if page > 0 then 1 else 0] == Button(PageLabel(page, totalPages), "no_action")
    ensures page < totalPages - 1 ==> row[|row| - 1] == Button(ForwardText, prefix + IntToStr(page + 1))
    ensures (exists i :: 0 <= i < |row| && row[i].text == BackText) <==> page > 0
    ensures (exists i :: 0 <= i < |row| && row[i].text == ForwardText) <==> page < totalPages - 1
  {
    row := [];
    if page > 0 {
      row := row + [Button(BackText, prefix + IntToStr(page - 1))];
    }
    row := row + [Button(PageLabel(page, totalPages), "no_action")];
    if page < totalPages - 1 {
      row := row + [Button(ForwardText, prefix + IntToStr(page + 1))];
    }
    LabelIsNotArrow(page, totalPages);
  }

  /** The page label is neither arrow text. */
  lemma LabelIsNotArrow(page: int, totalPages: int)
    ensures PageLabel(page, totalPages) != BackText && PageLabel(page, totalPages) != ForwardText
  {
    var l := PageLabel(page, totalPages);
    assert l[0] == IntToStr(page + 1)[0];
    assert BackText[0] == '⬅' && ForwardText[0] == 'В';
  }

  /** The arrows of the list keyboards lead to the neighbouring pages. */
  lemma ArrowTargets(page: int)
    ensures ParsePage("admin_list_categories_page_" + IntToStr(page - 1)) == page - 1
    ensures ParsePage("admin_list_products_page_" + IntToStr(page + 1)) == page + 1
  {
    assert "admin_list_categories_page_" == "admin_list_categories_page" + "_";
    ParsePageRoundTrip("admin_list_categories_page", page - 1);
    assert "admin_list_products_page_" == "admin_list_products_page" + "_";
    ParsePageRoundTrip("admin_list_products_page", page + 1);
  }

  // ---------------------------------------------------------------------
  // The list handlers' page computation
  // ---------------------------------------------------------------------

  /** The page a list callback shows for a non-empty list: the requested page
      clamped to the last one (admin.py:255-270, 492-497). */
  function ShownPage(data: string, n: nat): (page: int)
    requires n > 0
    ensures page <= TotalPages(n) - 1
    ensures ParsePage(data) >= 0 ==> 0 <= page
  {
    ClampPage(ParsePage(data), TotalPages(n))
  }

  // ---------------------------------------------------------------------
  // Item buttons on a list (admin.py:288, 319-322, 515, 544-546)
  // ---------------------------------------------------------------------

  /** What the category and product buttons of a list carry. */
  datatype ItemRef<K> = ItemRef(key: K, page: int)

  /** `f"admin_category_{category_id}_{page}"`. */
  function CategoryButtonData(category: string, page: int): string {
    "admin_category_" + category + "_" + IntToStr(page)
  }

  /** `f"admin_product_{product_id}_{page}"`. */
  function ProductButtonData(product: int, page: int): string {
    "admin_product_" + IntToStr(product) + "_" + IntToStr(page)
  }

  /** `int(parts[3]) if len(parts) > 3 else 0`, the ValueError left uncaught. */
  function PagePart(parts: seq<string>): Result<int> {
    if |parts| > 3 then
      match ParseInt(parts[3])
      case Some(n) => Ok(n)
      case None => Err(ValueError)
    else Ok(0)
  }

  /** admin_category_actions: the category id is the third `_` part and the
      page the fourth, 0 when absent; a non-integer fourth part raises. */
  function ParseCategoryAction(data: string): (r: Result<ItemRef<string>>)
    requires StartsWith(data, "admin_category_")
    ensures r.Err? ==> r.error == ValueError
    ensures r.Ok? ==> '_' !in r.value.key
  {
    var parts := Split(data, '_');
    assert data[..15][5] == data[5] && data[..15][14] == data[14];
    CountTwo(data, 5, 14);
    match PagePart(parts)
    case Ok(page) => Ok(ItemRef(parts[2], page))
    case Err(e) => Err(e)
  }

  /** admin_product_actions: the product id is the third `_` part and the page
      the fourth, 0 when absent; either part not an integer raises. */
  function ParseProductAction(data: string): (r: Result<ItemRef<int>>)
    requires StartsWith(data, "admin_product_")
    ensures r.Err? ==> r.error == ValueError
  {
    var parts := Split(data, '_');
    assert data[..14][5] == data[5] && data[..14][13] == data[13];
    CountTwo(data, 5, 13);
    match ParseInt(parts[2])
    case None => Err(ValueError)
    case Some(id) =>
      match PagePart(parts)
      case Ok(page) => Ok(ItemRef(id, page))
      case Err(e) => Err(e)
  }

  /** Two underscores at different places give at least three parts. */
  lemma {:induction false} CountTwo(s: string, i: nat, j: nat)
    requires i < j < |s| && s[i] == '_' && s[j] == '_'
    ensures Count(s, '_') >= 2
  {
    if i == 0 {
      CountPositive(s[1..], '_', j - 1);
    } else {
      CountTwo(s[1..], i - 1, j - 1);
    }
  }

  /** The parts of "a_b_x" for words a and b. */
  lemma {:induction false} TwoWordPrefix(a: string, b: string, x: string)
    requires '_' !in a && '_' !in b
    ensures Split(a + ['_'] + (b + ['_'] + x), '_') == [a, b] + Split(x, '_')
  {
    SplitAt(a, b + ['_'] + x, '_');
    SplitAt(b, x, '_');
    SplitNoSep(a, '_');
    SplitNoSep(b, '_');
  }

  /** The parts of "admin_category_…". */
  lemma CategoryPrefixSplit(x: string)
    ensures Split("admin_category_" + x, '_') == ["admin", "category"] + Split(x, '_')
  {
    assert "admin_category_" + x == "admin" + ['_'] + ("category" + ['_'] + x);
    TwoWordPrefix("admin", "category", x);
  }

  /** The parts of "admin_product_…". */
  lemma ProductPrefixSplit(x: string)
    ensures Split("admin_product_" + x, '_') == ["admin", "product"] + Split(x, '_')
  {
    assert "admin_product_" + x == "admin" + ['_'] + ("product" + ['_'] + x);
    TwoWordPrefix("admin", "product", x);
  }

  /** The parts of "a_b" for words a and b. */
  lemma SplitTwoWords(a: string, b: string)
    requires '_' !in a && '_' !in b
    ensures Split(a + "_" + b, '_') == [a, b]
  {
    assert a + "_" + b == a + ['_'] + b;
    SplitAt(a, b, '_');
    SplitNoSep(a, '_');
    SplitNoSep(b, '_');
  }

  /** A category button hands back its category and page, provided the
      category id holds no underscore. */
  lemma CategoryButtonRoundTrip(category: string, page: int)
    requires '_' !in category
    ensures StartsWith(CategoryButtonData(category, page), "admin_category_")
    ensures ParseCategoryAction(CategoryButtonData(category, page)) == Ok(ItemRef(category, page))
  {
    var digits := IntToStr(page);
    var x := category + "_" + digits;
    assert CategoryButtonData(category, page) == "admin_category_" + x;
    IntToStrNoUnderscore(page);
    SplitTwoWords(category, digits);
    CategoryPrefixSplit(x);
    StartsWithConcat("admin_category_", x);
    IntRoundTrip(page);
  }

  /** A category id with an underscore breaks its own button: for an id
      such as "hot_drinks" the fourth part is "drinks", not the page, and the
      handler raises. */
  lemma UnderscoreCategoryRaises(a: string, b: string, page: int)
    requires '_' !in a && '_' !in b && ParseInt(b) == None
    ensures StartsWith(CategoryButtonData(a + "_" + b, page), "admin_category_")
    ensures ParseCategoryAction(CategoryButtonData(a + "_" + b, page)) == Err(ValueError)
  {
    var digits := IntToStr(page);
    var x := a + "_" + b + "_" + digits;
    assert CategoryButtonData(a + "_" + b, page) == "admin_category_" + x;
    assert x == a + ['_'] + (b + ['_'] + digits);
    IntToStrNoUnderscore(page);
    SplitNoSep(digits, '_');
    TwoWordPrefix(a, b, digits);
    CategoryPrefixSplit(x);
    StartsWithConcat("admin_category_", x);
  }

  /** A product button hands back its product and page. */
  lemma ProductButtonRoundTrip(product: int, page: int)
    ensures StartsWith(ProductButtonData(product, page), "admin_product_")
    ensures ParseProductAction(ProductButtonData(product, page)) == Ok(ItemRef(product, page))
  {
    var id := IntToStr(product);
    var digits := IntToStr(page);
    var x := id + "_" + digits;
    assert ProductButtonData(product, page) == "admin_product_" + x;
    IntToStrNoUnderscore(product);
    IntToStrNoUnderscore(page);
    SplitTwoWords(id, digits);
    ProductPrefixSplit(x);
    StartsWithConcat("admin_product_", x);
    IntRoundTrip(product);
    IntRoundTrip(page);
  }

  /** The "Назад" button of the edit menu, `f"admin_product_{product_id}"`,
      carries no page and lands on page 0. */
  lemma ProductButtonWithoutPage(product: int)
    ensures StartsWith("admin_product_" + IntToStr(product), "admin_product_")
    ensures ParseProductAction("admin_product_" + IntToStr(product)) == Ok(ItemRef(product, 0))
  {
    var id := IntToStr(product);
    IntToStrNoUnderscore(product);
    SplitNoSep(id, '_');
    ProductPrefixSplit(id);
    StartsWithConcat("admin_product_", id);
    IntRoundTrip(product);
  }
}
