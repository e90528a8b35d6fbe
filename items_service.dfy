/**
 * The catalog service (src/items/service.go): the SQL statements it builds
 * for inserting, listing, changing and deleting items and for recording
 * their images, and how it passes the database's answers and errors back.
 * The database is a parameter: `exec` stands for `ExecuteQuery`, `fetch`
 * for the repository's `GetItems`.
 */
module ItemsService {
  import opened Errors
  import opened Text
  import opened Sql
  import opened ItemsModel

  /** The panic of indexing the second piece of a price range that has no `-`. */
  const IndexOutOfRange := "runtime error: index out of range [1] with length 1"

  // ----- InsertItem -----

  const InsertItemInto := "INSERT INTO items(user_id, " + "category_id, brand_id, created_at, "
  const InsertItemRest := "price, discounted_price, description)"

  const InsertItemFragments := [
    InsertItemInto + InsertItemRest + " VALUES (", ", ", ", ", ", FROM_UNIXTIME(", "), ", ", NULLIF(", ", 0), ", ")"]

  const InsertItemSql := Template(InsertItemFragments)

  lemma InsertItemIntoFree() ensures NoPlaceholder(InsertItemInto) { }
  lemma InsertItemRestFree() ensures NoPlaceholder(InsertItemRest) { }

  /**
   * The insert binds the seven columns in the order they are listed, the
   * creation time through FROM_UNIXTIME and a zero discounted price as NULL.
   */
  function InsertItemQuery(item: ItemPost): (q: Query)
    ensures Aligned(q) && q.text == InsertItemSql && |q.args| == 7
    ensures q.args == [IntArg(item.userId), IntArg(item.categoryId), IntArg(item.brandId), IntArg(item.createdAt),
                       IntArg(item.price), IntArg(item.discountedPrice), StrArg(item.description)]
  {
    InsertItemIntoFree();
    InsertItemRestFree();
    TemplatePlaceholders(InsertItemFragments);
    Query(InsertItemSql,
      [IntArg(item.userId), IntArg(item.categoryId), IntArg(item.brandId), IntArg(item.createdAt),
       IntArg(item.price), IntArg(item.discountedPrice), StrArg(item.description)])
  }

  /** `InsertItem`: the new row's id, or `(0, err)` for the first failure. */
  function InsertItem(item: ItemPost, exec: Query -> ExecResult): (r: Ret<int>)
    ensures var res := exec(InsertItemQuery(item));
      (r.err == Nil <==> res.Executed? && res.lastInsertId.err == Nil) &&
      (r.err == Nil ==> r.value == res.lastInsertId.value) &&
      (r.err != Nil ==> r.value == 0) &&
      (res.ExecFailed? ==> r.err == Fail(res.error)) &&
      (res.Executed? && res.lastInsertId.err != Nil ==> r.err == res.lastInsertId.err)
  {
    InsertedId(exec(InsertItemQuery(item)))
  }

  // ----- GetItems -----

  const SelectIds := "SELECT items.id, items.user_id, " + "categories.name, brands.name, "
  const SelectDetails := "UNIX_TIMESTAMP(created_at), price, " + "discounted_price, description, "
  const SelectModified := "UNIX_TIMESTAMP(modified_at), images.url"
  const FromItems := " FROM items JOIN brands" + " ON items.brand_id = brands.id"
  const JoinCategories := " JOIN categories" + " ON items.category_id = categories.id"
  const JoinItemsImages := " LEFT JOIN items_images" + " ON items.id = items_images.item_id"
  const JoinImages := " LEFT JOIN images" + " ON items_images.image_id = images.id"
  const WhereLive := " WHERE deleted_at IS NULL" + " AND items_images.display_order = 0"

  /** The listing query before any filter: live items with their first image. */
  const ItemsSelect :=
    SelectIds + SelectDetails + SelectModified + FromItems + JoinCategories + JoinItemsImages + JoinImages + WhereLive

  const BrandFilterOpen := " AND brand_id IN ("

  const PriceRangeOpen := " AND (CASE WHEN discounted_price" + " IS NULL THEN ((price > "

  const PriceRangeFragments := [
    PriceRangeOpen, ") AND (price < ", ")) ELSE ((discounted_price > ", ") AND (discounted_price < ", ")) END)"]

  /** Both bounds strict, on the discounted price when there is one. */
  const PriceRange := Template(PriceRangeFragments)

  const LimitClause := Template([" LIMIT ", ";"])

  lemma SelectIdsFree() ensures NoPlaceholder(SelectIds) { }
  lemma SelectDetailsFree() ensures NoPlaceholder(SelectDetails) { }
  lemma SelectModifiedFree() ensures NoPlaceholder(SelectModified) { }
  lemma FromItemsFree() ensures NoPlaceholder(FromItems) { }
  lemma JoinCategoriesFree() ensures NoPlaceholder(JoinCategories) { }
  lemma JoinItemsImagesFree() ensures NoPlaceholder(JoinItemsImages) { }
  lemma JoinImagesFree() ensures NoPlaceholder(JoinImages) { }
  lemma WhereLiveFree() ensures NoPlaceholder(WhereLive) { }
  lemma PriceRangeOpenFree() ensures NoPlaceholder(PriceRangeOpen) { }

  lemma ItemsSelectFree()
    ensures Count(ItemsSelect, '?') == 0
  {
    SelectIdsFree();
    SelectDetailsFree();
    SelectModifiedFree();
    FromItemsFree();
    JoinCategoriesFree();
    JoinItemsImagesFree();
    JoinImagesFree();
    WhereLiveFree();
    CountAbsent(ItemsSelect, '?');
  }

  lemma BrandFilterOpenFree()
    ensures Count(BrandFilterOpen, '?') == 0
  {
    CountAbsent(BrandFilterOpen, '?');
  }

  lemma LiteralCounts()
    ensures Count("?", '?') == 1 && Count(")", '?') == 0 && Count("", '?') == 0
  {
  }

  lemma PriceRangePlaceholders()
    ensures Count(PriceRange, '?') == 4
  {
    PriceRangeOpenFree();
    TemplatePlaceholders(PriceRangeFragments);
  }

  lemma LimitClausePlaceholders()
    ensures Count(LimitClause, '?') == 1
  {
    TemplatePlaceholders([" LIMIT ", ";"]);
  }

  /**
   * The brand ids bound by the listing query: those comma-separated pieces
   * of the filter that `strconv.Atoi` accepts, in order; the others are
   * dropped without an error.
   */
  function BrandIdArgs(pieces: seq<string>): (args: seq<Arg>)
    ensures |args| <= |pieces|
  {
    if pieces == [] then []
    else
      BrandIdArgs(pieces[..|pieces| - 1]) +
      match Atoi(pieces[|pieces| - 1])
      case Some(id) => [IntArg(id)]
      case None => []
  }

  /** Only the first `brand` value of the query string is read. */
  function BrandIds(filter: Filter): seq<Arg> {
    if |filter.brand| > 0 then BrandIdArgs(Split(filter.brand[0], ',')) else []
  }

  /** n copies of `?, `, as the loop over the brand pieces appends them. */
  function Holes(n: nat): string {
    if n == 0 then "" else Holes(n - 1) + "?, "
  }

  /** The brand clause for n parsed ids: `(?, ..., ?)`, or nothing when n is zero. */
  function BrandClause(n: nat): string {
    if n == 0 then "" else BrandFilterOpen + Holes(n - 1) + "?" + ")"
  }

  /** The price clause: present exactly when one `prices` value is given. */
  function PriceClause(filter: Filter): string {
    if |filter.prices| == 1 then PriceRange else ""
  }

  /** The values of the price clause: low, high, low, high. */
  function PriceArgs(filter: Filter): seq<Arg>
    requires |filter.prices| == 1 ==> |Split(filter.prices[0], '-')| >= 2
  {
    if |filter.prices| == 1 then
      var bounds := Split(filter.prices[0], '-');
      [StrArg(bounds[0]), StrArg(bounds[1]), StrArg(bounds[0]), StrArg(bounds[1])]
    else []
  }

  /**
   * The query `GetItems` hands to the repository, or None where it panics:
   * a single `prices` value without a `-`. The limit is bound last.
   */
  function ItemsQuery(limit: int, filter: Filter): Option<Query> {
    if |filter.prices| == 1 && |Split(filter.prices[0], '-')| < 2 then None
    else
      var brand := BrandIds(filter);
      Some(Query(ItemsSelect + BrandClause(|brand|) + PriceClause(filter) + LimitClause,
        brand + PriceArgs(filter) + [IntArg(limit)]))
  }

  /** Reading one more piece adds its id when it parses, and nothing otherwise. */
  lemma BrandIdArgsStep(pieces: seq<string>, i: nat)
    requires i < |pieces|
    ensures BrandIdArgs(pieces[..i + 1]) ==
      BrandIdArgs(pieces[..i]) + (if Atoi(pieces[i]).Some? then [IntArg(Atoi(pieces[i]).value)] else [])
  {
    assert pieces[..i + 1][..i] == pieces[..i];
  }

  /** Every id the brand value yields comes from a piece that parses to it. */
  lemma {:induction false} BrandIdArgsSound(pieces: seq<string>, a: Arg)
    requires a in BrandIdArgs(pieces)
    ensures exists k :: 0 <= k < |pieces| && a.IntArg? && Atoi(pieces[k]) == Some(a.i)
  {
    var init := pieces[..|pieces| - 1];
    if a in BrandIdArgs(init) {
      BrandIdArgsSound(init, a);
      var k :| 0 <= k < |init| && a.IntArg? && Atoi(init[k]) == Some(a.i);
      assert pieces[k] == init[k];
    } else {
      assert a.IntArg? && Atoi(pieces[|pieces| - 1]) == Some(a.i);
    }
  }

  /** Every piece of the brand value that parses yields its id. */
  lemma {:induction false} BrandIdArgsComplete(pieces: seq<string>, k: nat)
    requires k < |pieces| && Atoi(pieces[k]).Some?
    ensures IntArg(Atoi(pieces[k]).value) in BrandIdArgs(pieces)
  {
    var init := pieces[..|pieces| - 1];
    if k < |init| {
      assert init[k] == pieces[k];
      BrandIdArgsComplete(init, k);
    }
  }

  lemma {:induction false} HolesPlaceholders(n: nat)
    ensures Count(Holes(n), '?') == n
  {
    if n > 0 {
      HolesPlaceholders(n - 1);
      CountAppend(Holes(n - 1), "?, ", '?');
    }
  }

  lemma Count4(a: string, b: string, c: string, d: string)
    ensures Count(a + b + c + d, '?') == Count(a, '?') + Count(b, '?') + Count(c, '?') + Count(d, '?')
  {
    CountAppend(a, b, '?');
    CountAppend(a + b, c, '?');
    CountAppend(a + b + c, d, '?');
  }

  lemma ClauseCount(h: string, n: nat)
    requires n > 0 && Count(h, '?') == n - 1
    ensures Count(BrandFilterOpen + h + "?" + ")", '?') == n
  {
    BrandFilterOpenFree();
    LiteralCounts();
    Count4(BrandFilterOpen, h, "?", ")");
  }

  lemma BrandClausePlaceholders(n: nat)
    ensures Count(BrandClause(n), '?') == n
  {
    if n > 0 {
      HolesPlaceholders(n - 1);
      ClauseCount(Holes(n - 1), n);
    } else {
      LiteralCounts();
    }
  }

  lemma AlignedParts(a: string, b: string, c: string, d: string, x: seq<Arg>, y: seq<Arg>, z: Arg)
    requires Count(a, '?') == 0 && Count(b, '?') == |x| && Count(c, '?') == |y| && Count(d, '?') == 1
    ensures Aligned(Query(a + b + c + d, x + y + [z]))
  {
    Count4(a, b, c, d);
  }

  /** Every listing query the service builds binds one value per placeholder. */
  lemma ItemsQueryAligned(limit: int, filter: Filter)
    requires ItemsQuery(limit, filter).Some?
    ensures Aligned(ItemsQuery(limit, filter).value)
  {
    var brand := BrandIds(filter);
    ItemsSelectFree();
    BrandClausePlaceholders(|brand|);
    PriceRangePlaceholders();
    LimitClausePlaceholders();
    LiteralCounts();
    AlignedParts(ItemsSelect, BrandClause(|brand|), PriceClause(filter), LimitClause, brand, PriceArgs(filter), IntArg(limit));
  }

  /** The listing panics exactly when one price value is given and it holds no `-`. */
  lemma ItemsQueryPanics(limit: int, filter: Filter)
    ensures ItemsQuery(limit, filter).None? <==> |filter.prices| == 1 && '-' !in filter.prices[0]
  {
    if |filter.prices| == 1 {
      if '-' in filter.prices[0] {
        CountPresent(filter.prices[0], '-');
      } else {
        CountAbsent(filter.prices[0], '-');
      }
    }
  }

  /**
   * The query ends with the limit clause and binds the limit last; the
   * parsed brand ids come first, in order.
   */
  lemma ItemsQueryLimitLast(limit: int, filter: Filter)
    requires ItemsQuery(limit, filter).Some?
    ensures var q := ItemsQuery(limit, filter).value;
      HasSuffix(q.text, LimitClause) && q.args[|q.args| - 1] == IntArg(limit) &&
      q.args[..|BrandIds(filter)|] == BrandIds(filter)
  {
    var q := ItemsQuery(limit, filter).value;
    assert q.text[|q.text| - |LimitClause|..] == LimitClause;
  }

  /**
   * A brand value none of whose pieces parses filters nothing: the query
   * is the one built with no brand at all.
   */
  lemma UnparsedBrandsIgnored(limit: int, filter: Filter)
    requires BrandIds(filter) == []
    ensures ItemsQuery(limit, filter) == ItemsQuery(limit, Filter([], filter.prices))
  {
  }

  /** Price values are used only when exactly one is given. */
  lemma SeveralPricesIgnored(limit: int, filter: Filter)
    requires |filter.prices| != 1
    ensures ItemsQuery(limit, filter) == ItemsQuery(limit, Filter(filter.brand, []))
  {
  }

  lemma AppendNothing(s: string)
    ensures s + "" == s
  {
  }

  /** One more parsed id appends one more hole. */
  lemma HolesStep(prefix: string, n: nat)
    ensures prefix + Holes(n) + "?, " == prefix + Holes(n + 1)
  {
  }

  /** With no parsed id the opening is trimmed away again. */
  lemma CloseEmptyBrandClause(prefix: string, open: string)
    ensures TrimSuffix(prefix + open + Holes(0), open) == prefix + BrandClause(0)
  {
    assert prefix + open + Holes(0) == prefix + open;
    TrimSuffixAppended(prefix, open);
  }

  /** After at least one id, trimming the last `, ` and closing leaves `?)`. */
  lemma CloseBrandClause(prefix: string, open: string, n: nat)
    requires n > 0
    ensures TrimSuffix(prefix + open + Holes(n), ", ") + ")" == prefix + (open + Holes(n - 1) + "?" + ")")
  {
    assert prefix + open + Holes(n) == prefix + open + Holes(n - 1) + "?" + ", ";
    TrimSuffixAppended(prefix + open + Holes(n - 1) + "?", ", ");
  }

  /**
   * The loop of `GetItems` over the pieces of the brand value: `?, ` and
   * the id for each piece that parses.
   */
  method AppendBrandIds(prefix: string, pieces: seq<string>) returns (query: string, arguments: seq<Arg>)
    ensures arguments == BrandIdArgs(pieces)
    ensures query == prefix + Holes(|arguments|)
  {
    query := prefix;
    arguments := [];
    var i := 0;
    while i < |pieces|
      invariant 0 <= i <= |pieces|
      invariant arguments == BrandIdArgs(pieces[..i])
      invariant query == prefix + Holes(|arguments|)
    {
      BrandIdArgsStep(pieces, i);
      var brandId := Atoi(pieces[i]);
      if brandId.Some? {
        HolesStep(prefix, |arguments|);
        query := query + "?, ";
        arguments := arguments + [IntArg(brandId.value)];
      }
      i := i + 1;
    }
    assert pieces[..i] == pieces;
  }

  /**
   * The brand part of `GetItems`: opens the clause, appends the ids of the
   * pieces that parse, then closes the clause, or takes it back when no
   * piece parsed.
   */
  method AppendBrandFilter(head: string, pieces: seq<string>) returns (query: string, arguments: seq<Arg>)
    ensures arguments == BrandIdArgs(pieces)
    ensures query == head + BrandClause(|arguments|)
  {
    var start := head + BrandFilterOpen;
    var appended;
    appended, arguments := AppendBrandIds(start, pieces);
    if |arguments| == 0 {
      CloseEmptyBrandClause(head, BrandFilterOpen);
      query := TrimSuffix(appended, BrandFilterOpen);
    } else {
      CloseBrandClause(head, BrandFilterOpen, |arguments|);
      var trimmed := TrimSuffix(appended, ", ");
      query := trimmed + ")";
    }
  }

  /**
   * `GetItems`: builds the listing query step by step, panics where the
   * price range has no `-`, else returns the repository's rows, or nil and
   * the repository's error.
   */
  method GetItems(limit: int, filter: Filter, fetch: Query -> Ret<seq<ItemGet>>)
    returns (outcome: Outcome<Option<seq<ItemGet>>>, sent: Query)
    ensures outcome.Panic? <==> ItemsQuery(limit, filter).None?
    ensures outcome.Panic? ==> outcome.reason == IndexOutOfRange
    ensures outcome.Return? ==>
      sent == ItemsQuery(limit, filter).value &&
      outcome.ret == (if fetch(sent).err != Nil then Ret(None, fetch(sent).err) else Ret(Some(fetch(sent).value), Nil))
  {
    var query := ItemsSelect;
    var arguments: seq<Arg> := [];
    if |filter.brand| > 0 {
      var pieces := Split(filter.brand[0], ',');
      query, arguments := AppendBrandFilter(query, pieces);
    } else {
      AppendNothing(query);
    }
    if |filter.prices| == 1 {
      var bounds := Split(filter.prices[0], '-');
      if |bounds| < 2 {
        return Panic(IndexOutOfRange), Query(query, arguments);
      }
      var lowPrice := bounds[0];
      var highPrice := bounds[1];
      query := query + PriceRange;
      arguments := arguments + [StrArg(lowPrice), StrArg(highPrice), StrArg(lowPrice), StrArg(highPrice)];
    } else {
      AppendNothing(query);
    }
    query := query + LimitClause;
    arguments := arguments + [IntArg(limit)];
    sent := Query(query, arguments);
    var reply := fetch(sent);
    if reply.err != Nil {
      return Return(Ret(None, reply.err)), sent;
    }
    return Return(Ret(Some(reply.value), Nil)), sent;
  }

  // ----- UpdateItem -----

  /** The columns `UpdateItem` may set. */
  datatype Column =
    | CategoryColumn | BrandColumn | PriceColumn | DiscountedPriceColumn
    | DescriptionColumn | ModifiedAtColumn | DeletedAtColumn

  /** The columns in the order `UpdateItem` checks them. */
  const AllColumns := [
    CategoryColumn, BrandColumn, PriceColumn, DiscountedPriceColumn,
    DescriptionColumn, ModifiedAtColumn, DeletedAtColumn]

  function Rank(c: Column): nat {
    match c
    case CategoryColumn => 0
    case BrandColumn => 1
    case PriceColumn => 2
    case DiscountedPriceColumn => 3
    case DescriptionColumn => 4
    case ModifiedAtColumn => 5
    case DeletedAtColumn => 6
  }

  /**
   * Whether the patch sets a column: a non-zero or non-empty field, except
   * that the discounted price follows the `discount` flag and the deletion
   * time the `changeDeleted` flag.
   */
  predicate Writes(item: ItemPatch, c: Column) {
    match c
    case CategoryColumn => item.categoryId != 0
    case BrandColumn => item.brandId != 0
    case PriceColumn => item.price != 0
    case DiscountedPriceColumn => item.discount
    case DescriptionColumn => item.description != ""
    case ModifiedAtColumn => item.modifiedAt != 0
    case DeletedAtColumn => item.changeDeleted
  }

  const UpdateHead := "UPDATE items SET"

  /** The text of an assignment before its placeholder. */
  function Opening(c: Column): string {
    match c
    case CategoryColumn => " category_id = ("
    case BrandColumn => " brand_id = ("
    case PriceColumn => " price = ("
    case DiscountedPriceColumn => " discounted_price = NULLIF("
    case DescriptionColumn => " description = ("
    case ModifiedAtColumn => " modified_at = FROM_UNIXTIME("
    case DeletedAtColumn => " deleted_at = FROM_UNIXTIME(NULLIF("
  }

  /**
   * The text of an assignment after its placeholder: a zero discounted
   * price is stored as NULL, and so is a zero deletion time, which
   * undeletes the item.
   */
  function Closing(c: Column): string {
    match c
    case DiscountedPriceColumn => ", 0)"
    case DeletedAtColumn => ", 0))"
    case _ => ")"
  }

  /** The assignment of one column, as `UpdateItem` appends it before its comma. */
  function Assignment(c: Column): string {
    Template([Opening(c), Closing(c)])
  }

  const SetCategoryId := Assignment(CategoryColumn)
  const SetBrandId := Assignment(BrandColumn)
  const SetPrice := Assignment(PriceColumn)
  const SetDiscountedPrice := Assignment(DiscountedPriceColumn)
  const SetDescription := Assignment(DescriptionColumn)
  const SetModifiedAt := Assignment(ModifiedAtColumn)
  const SetDeletedAt := Assignment(DeletedAtColumn)
  const WhereId := Template([" WHERE id = (", ");"])

  function Value(item: ItemPatch, c: Column): Arg {
    match c
    case CategoryColumn => IntArg(item.categoryId)
    case BrandColumn => IntArg(item.brandId)
    case PriceColumn => IntArg(item.price)
    case DiscountedPriceColumn => IntArg(item.discountedPrice)
    case DescriptionColumn => StrArg(item.description)
    case ModifiedAtColumn => IntArg(item.modifiedAt)
    case DeletedAtColumn => IntArg(item.deletedAt)
  }

  predicate Ascending(cols: seq<Column>) {
    forall i, j :: 0 <= i < j < |cols| ==> Rank(cols[i]) < Rank(cols[j])
  }

  /** The columns of `cols` the patch sets, in the same order. */
  function Kept(item: ItemPatch, cols: seq<Column>): (r: seq<Column>)
    ensures |r| <= |cols|
  {
    if cols == [] then []
    else
      var last := cols[|cols| - 1];
      Kept(item, cols[..|cols| - 1]) + if Writes(item, last) then [last] else []
  }

  /** `Kept` keeps exactly the columns the patch sets, and keeps their order. */
  lemma {:induction false} KeptFilters(item: ItemPatch, cols: seq<Column>)
    ensures forall x :: x in Kept(item, cols) <==> x in cols && Writes(item, x)
    ensures Ascending(cols) ==> Ascending(Kept(item, cols))
  {
    if cols != [] {
      var init := cols[..|cols| - 1];
      var last := cols[|cols| - 1];
      KeptFilters(item, init);
      assert cols == init + [last];
      if Ascending(cols) {
        assert forall x :: x in init ==> Rank(x) < Rank(last);
      }
    }
  }

  lemma KeptSnoc(item: ItemPatch, cols: seq<Column>, c: Column)
    ensures Kept(item, cols + [c]) == if Writes(item, c) then Kept(item, cols) + [c] else Kept(item, cols)
  {
    assert (cols + [c])[..|cols|] == cols;
    assert Kept(item, cols) + [] == Kept(item, cols);
  }

  /** The columns the patch sets, in the order `UpdateItem` checks them. */
  function Written(item: ItemPatch): seq<Column> {
    Kept(item, AllColumns)
  }

  /** A column is set exactly when the patch asks for it, at most once and in order. */
  lemma WrittenExactly(item: ItemPatch)
    ensures forall c :: c in Written(item) <==> Writes(item, c)
    ensures Ascending(Written(item))
  {
    KeptFilters(item, AllColumns);
    assert Ascending(AllColumns);
    forall c ensures c in AllColumns {
      assert AllColumns[Rank(c)] == c;
    }
  }

  function Assignments(cols: seq<Column>): seq<string> {
    seq(|cols|, k requires 0 <= k < |cols| => Assignment(cols[k]))
  }

  /** The values of the columns set, in the same order. */
  function Values(item: ItemPatch, cols: seq<Column>): seq<Arg> {
    seq(|cols|, k requires 0 <= k < |cols| => Value(item, cols[k]))
  }

  /** The pieces, each followed by a comma. */
  function Terminated(pieces: seq<string>): string {
    if pieces == [] then "" else Terminated(pieces[..|pieces| - 1]) + pieces[|pieces| - 1] + ","
  }

  /** The assignments as the method appends them, each followed by a comma. */
  function Listed(cols: seq<Column>): string {
    if cols == [] then "" else Listed(cols[..|cols| - 1]) + Assignment(cols[|cols| - 1]) + ","
  }

  /**
   * The statement `UpdateItem` executes: the assignments of the columns the
   * patch sets, separated by commas, then the id.
   */
  function UpdateQuery(item: ItemPatch): Query {
    var cols := Written(item);
    Query(UpdateHead + Join(Assignments(cols), ',') + WhereId, Values(item, cols) + [IntArg(item.id)])
  }

  predicate OneHoleEndingInParen(a: string) {
    Count(a, '?') == 1 && a != [] && a[|a| - 1] == ')'
  }

  /** A two-fragment template has one placeholder and ends as its second fragment does. */
  lemma OneHole(a: string, b: string)
    requires NoPlaceholder(a) && NoPlaceholder(b) && b != [] && b[|b| - 1] == ')'
    ensures OneHoleEndingInParen(Template([a, b]))
  {
    TemplatePlaceholders([a, b]);
    JoinEnd([a, b], '?');
  }

  lemma CategoryOpeningFree() ensures NoPlaceholder(Opening(CategoryColumn)) { }
  lemma BrandOpeningFree() ensures NoPlaceholder(Opening(BrandColumn)) { }
  lemma PriceOpeningFree() ensures NoPlaceholder(Opening(PriceColumn)) { }
  lemma DiscountedPriceOpeningFree() ensures NoPlaceholder(Opening(DiscountedPriceColumn)) { }
  lemma DescriptionOpeningFree() ensures NoPlaceholder(Opening(DescriptionColumn)) { }
  lemma ModifiedAtOpeningFree() ensures NoPlaceholder(Opening(ModifiedAtColumn)) { }
  lemma DeletedAtOpeningFree() ensures NoPlaceholder(Opening(DeletedAtColumn)) { }

  lemma OpeningFree(c: Column)
    ensures NoPlaceholder(Opening(c))
  {
    match c
    case CategoryColumn => CategoryOpeningFree();
    case BrandColumn => BrandOpeningFree();
    case PriceColumn => PriceOpeningFree();
    case DiscountedPriceColumn => DiscountedPriceOpeningFree();
    case DescriptionColumn => DescriptionOpeningFree();
    case ModifiedAtColumn => ModifiedAtOpeningFree();
    case DeletedAtColumn => DeletedAtOpeningFree();
  }

  lemma ClosingShape(c: Column)
    ensures NoPlaceholder(Closing(c)) && Closing(c) != [] && Closing(c)[|Closing(c)| - 1] == ')'
  {
  }

  /** Every assignment binds one value and ends in `)`. */
  lemma AssignmentShape(c: Column)
    ensures OneHoleEndingInParen(Assignment(c))
  {
    OpeningFree(c);
    ClosingShape(c);
    OneHole(Opening(c), Closing(c));
  }

  /** Joining one-placeholder pieces with commas gives one placeholder per piece. */
  lemma {:induction false} JoinPlaceholders(pieces: seq<string>)
    requires forall k :: 0 <= k < |pieces| ==> Count(pieces[k], '?') == 1
    ensures Count(Join(pieces, ','), '?') == |pieces|
  {
    if |pieces| > 1 {
      JoinPlaceholders(pieces[1..]);
      CountAppend(pieces[0], [','], '?');
      CountAppend(pieces[0] + [','], Join(pieces[1..], ','), '?');
    }
  }

  lemma UpdateHeadFree()
    ensures Count(UpdateHead, '?') == 0 && UpdateHead[|UpdateHead| - 1] == 'T'
  {
    CountAbsent(UpdateHead, '?');
  }

  lemma WhereIdPlaceholder()
    ensures Count(WhereId, '?') == 1
  {
    TemplatePlaceholders([" WHERE id = (", ");"]);
  }

  lemma SetListPlaceholders(cols: seq<Column>)
    ensures Count(Join(Assignments(cols), ','), '?') == |cols|
  {
    forall k | 0 <= k < |cols| ensures Count(Assignments(cols)[k], '?') == 1 {
      AssignmentShape(cols[k]);
    }
    JoinPlaceholders(Assignments(cols));
  }

  /** Every update statement binds one value per placeholder, the id last. */
  lemma UpdateQueryAligned(item: ItemPatch)
    ensures Aligned(UpdateQuery(item))
    ensures var q := UpdateQuery(item); q.args[|q.args| - 1] == IntArg(item.id)
  {
    var cols := Written(item);
    SetListPlaceholders(cols);
    UpdateHeadFree();
    WhereIdPlaceholder();
    AlignedAround(UpdateHead, Join(Assignments(cols), ','), WhereId, Values(item, cols), IntArg(item.id));
  }

  lemma AlignedAround(a: string, b: string, c: string, x: seq<Arg>, z: Arg)
    requires Count(a, '?') == 0 && Count(b, '?') == |x| && Count(c, '?') == 1
    ensures Aligned(Query(a + b + c, x + [z]))
  {
    CountAppend(a, b, '?');
    CountAppend(a + b, c, '?');
  }

  /** The SET list ends in `)` when it is not empty. */
  lemma SetListEnd(cols: seq<Column>)
    requires cols != []
    ensures var j := Join(Assignments(cols), ','); j != [] && j[|j| - 1] == ')'
  {
    var pieces := Assignments(cols);
    var last := cols[|cols| - 1];
    assert pieces[|pieces| - 1] == Assignment(last);
    AssignmentEnd(last);
    JoinEnd(pieces, ',');
  }

  /** Every assignment ends in `)`. */
  lemma AssignmentEnd(c: Column)
    ensures var a := Assignment(c); a != [] && a[|a| - 1] == ')'
  {
    ClosingShape(c);
    JoinEnd([Opening(c), Closing(c)], '?');
  }

  /**
   * The trailing comma is gone: the character before ` WHERE` closes the
   * last assignment, or ends `SET` when the patch sets nothing.
   */
  lemma UpdateQueryNoTrailingComma(item: ItemPatch)
    ensures var t := UpdateQuery(item).text; |t| > |WhereId| && t[|t| - |WhereId| - 1] != ','
  {
    var cols := Written(item);
    var setList := UpdateHead + Join(Assignments(cols), ',');
    var t := UpdateQuery(item).text;
    UpdateHeadFree();
    assert t == setList + WhereId;
    assert t[|t| - |WhereId| - 1] == setList[|setList| - 1];
    if cols != [] {
      SetListEnd(cols);
    }
  }

  /** A patch that passes `ItemPatch.checkFields` always sets `modified_at`, so the SET list is never empty. */
  lemma CheckedPatchSetsModifiedAt(item: ItemPatch)
    requires CheckItemPatch(item) == Nil
    ensures ModifiedAtColumn in Written(item)
  {
    WrittenExactly(item);
  }

  /**
   * `checkFields` counts a deletion time as something to update, but
   * `UpdateItem` writes it only under `changeDeleted`: such a patch passes
   * and changes nothing but the modification time.
   */
  lemma DeletedAtWithoutFlagOnlyTouches(item: ItemPatch)
    requires item == ItemPatch(item.id, 0, 0, 0, false, 0, "", item.modifiedAt, false, item.deletedAt)
    requires item.id != 0 && item.modifiedAt != 0 && item.deletedAt != 0
    ensures CheckItemPatch(item) == Nil
    ensures forall c :: c in Written(item) <==> c == ModifiedAtColumn
  {
    WrittenExactly(item);
  }

  /**
   * Undeleting an item on its own is refused: `changeDeleted` with a zero
   * deletion time is not something `checkFields` sees as an update.
   */
  lemma UndeleteAloneRefused(item: ItemPatch)
    requires item == ItemPatch(item.id, 0, 0, 0, false, 0, "", item.modifiedAt, true, 0)
    requires item.id != 0 && item.modifiedAt != 0
    ensures CheckItemPatch(item) == Fail(NothingToUpdate)
    ensures DeletedAtColumn in Written(item)
  {
    WrittenExactly(item);
  }

  /** The state of `UpdateItem` after visiting the columns `visited`. */
  predicate Built(item: ItemPatch, visited: seq<Column>, query: string, params: seq<Arg>) {
    var cols := Kept(item, visited);
    query == UpdateHead + Listed(cols) && params == Values(item, cols)
  }

  /** Visiting a column the patch sets: its assignment and its value are appended. */
  lemma BuiltWrite(item: ItemPatch, visited: seq<Column>, c: Column, query: string, params: seq<Arg>)
    requires Built(item, visited, query, params) && Writes(item, c)
    ensures Built(item, visited + [c], query + Assignment(c) + ",", params + [Value(item, c)])
  {
    var cols := Kept(item, visited);
    KeptSnoc(item, visited, c);
    ListedSnoc(cols, c);
    ValuesSnoc(item, cols, c);
    AppendThree(UpdateHead, Listed(cols), Assignment(c), ",");
  }

  /** Visiting a column the patch leaves alone: nothing is appended. */
  lemma BuiltSkip(item: ItemPatch, visited: seq<Column>, c: Column, query: string, params: seq<Arg>)
    requires Built(item, visited, query, params) && !Writes(item, c)
    ensures Built(item, visited + [c], query, params)
  {
    KeptSnoc(item, visited, c);
  }

  lemma AppendThree(a: string, b: string, c: string, d: string)
    ensures a + (b + c + d) == a + b + c + d
  {
  }

  lemma ListedSnoc(cols: seq<Column>, c: Column)
    ensures Listed(cols + [c]) == Listed(cols) + Assignment(c) + ","
  {
    assert (cols + [c])[..|cols|] == cols;
  }

  lemma ValuesSnoc(item: ItemPatch, cols: seq<Column>, c: Column)
    ensures Values(item, cols + [c]) == Values(item, cols) + [Value(item, c)]
  {
  }

  /** Terminating each piece with a comma is joining them with commas and adding one more. */
  lemma {:induction false} TerminatedJoin(pieces: seq<string>)
    requires pieces != []
    ensures Terminated(pieces) == Join(pieces, ',') + ","
  {
    var init := pieces[..|pieces| - 1];
    var last := pieces[|pieces| - 1];
    assert pieces == init + [last];
    if init != [] {
      TerminatedJoin(init);
      JoinSnoc(init, last, ',');
    }
  }

  /** Listing the columns is terminating their assignments. */
  lemma {:induction false} ListedTerminated(cols: seq<Column>)
    ensures Listed(cols) == Terminated(Assignments(cols))
  {
    if cols != [] {
      var init := cols[..|cols| - 1];
      var pieces := Assignments(cols);
      ListedTerminated(init);
      assert pieces[..|init|] == Assignments(init);
    }
  }

  lemma ListedJoin(cols: seq<Column>)
    requires cols != []
    ensures Listed(cols) == Join(Assignments(cols), ',') + ","
  {
    ListedTerminated(cols);
    TerminatedJoin(Assignments(cols));
  }

  lemma CloseSetList(cols: seq<Column>)
    ensures TrimSuffix(UpdateHead + Listed(cols), ",") == UpdateHead + Join(Assignments(cols), ',')
  {
    if cols == [] {
      UpdateHeadFree();
      assert UpdateHead + Listed(cols) == UpdateHead;
      assert !HasSuffix(UpdateHead, ",");
    } else {
      ListedJoin(cols);
      assert UpdateHead + Listed(cols) == UpdateHead + Join(Assignments(cols), ',') + ",";
      TrimSuffixAppended(UpdateHead + Join(Assignments(cols), ','), ",");
    }
  }

  /**
   * One `if` of `UpdateItem`: when the patch sets column `c`, append its
   * assignment with a trailing comma and bind its value; otherwise leave
   * both alone.
   */
  method AppendAssignment(item: ItemPatch, ghost visited: seq<Column>, c: Column, query: string, params: seq<Arg>)
    returns (grown: string, bound: seq<Arg>)
    requires Built(item, visited, query, params)
    ensures Built(item, visited + [c], grown, bound)
  {
    if Writes(item, c) {
      BuiltWrite(item, visited, c, query, params);
      grown := query + Assignment(c) + ",";
      bound := params + [Value(item, c)];
    } else {
      BuiltSkip(item, visited, c, query, params);
      grown, bound := query, params;
    }
  }

  /**
   * `UpdateItem`: for each column the patch sets, in the source's order,
   * appends an assignment and its value; drops the trailing comma, binds
   * the id last, and returns the number of rows affected or `(0, err)` for
   * the first failure.
   */
  method UpdateItem(item: ItemPatch, exec: Query -> ExecResult) returns (r: Ret<int>, sent: Query)
    ensures sent == UpdateQuery(item)
    ensures r.err == Nil <==> exec(sent).Executed? && exec(sent).rowsAffected.err == Nil
    ensures r.err == Nil ==> r.value == exec(sent).rowsAffected.value
    ensures r.err != Nil ==> r.value == 0
    ensures exec(sent).ExecFailed? ==> r.err == Fail(exec(sent).error)
    ensures exec(sent).Executed? && exec(sent).rowsAffected.err != Nil ==> r.err == exec(sent).rowsAffected.err
  {
    var params: seq<Arg> := [];
    var query := UpdateHead;
    AppendNothing(query);
    ghost var visited: seq<Column> := [];
    query, params := AppendAssignment(item, visited, CategoryColumn, query, params);
    visited := visited + [CategoryColumn];
    query, params := AppendAssignment(item, visited, BrandColumn, query, params);
    visited := visited + [BrandColumn];
    query, params := AppendAssignment(item, visited, PriceColumn, query, params);
    visited := visited + [PriceColumn];
    query, params := AppendAssignment(item, visited, DiscountedPriceColumn, query, params);
    visited := visited + [DiscountedPriceColumn];
    query, params := AppendAssignment(item, visited, DescriptionColumn, query, params);
    visited := visited + [DescriptionColumn];
    query, params := AppendAssignment(item, visited, ModifiedAtColumn, query, params);
    visited := visited + [ModifiedAtColumn];
    query, params := AppendAssignment(item, visited, DeletedAtColumn, query, params);
    visited := visited + [DeletedAtColumn];
    assert visited == AllColumns;
    CloseSetList(Written(item));
    query := TrimSuffix(query, ",");
    query := query + WhereId;
    params := params + [IntArg(item.id)];
    sent := Query(query, params);
    r := AffectedRows(exec(sent));
  }

  // ----- DeleteItem and the image rows -----

  const DeleteItemSql := Template(["DELETE FROM items WHERE id = (", ");"])

  function DeleteItemQuery(itemId: int): (q: Query)
    ensures Aligned(q) && q.text == DeleteItemSql && q.args == [IntArg(itemId)]
  {
    TemplatePlaceholders(["DELETE FROM items WHERE id = (", ");"]);
    Query(DeleteItemSql, [IntArg(itemId)])
  }

  /** `DeleteItem`: a hard delete by id; the rows affected, or `(0, err)`. */
  function DeleteItem(itemId: int, exec: Query -> ExecResult): (r: Ret<int>)
    ensures var res := exec(DeleteItemQuery(itemId));
      (r.err == Nil <==> res.Executed? && res.rowsAffected.err == Nil) &&
      (r.err == Nil ==> r.value == res.rowsAffected.value) &&
      (r.err != Nil ==> r.value == 0) &&
      (res.ExecFailed? ==> r.err == Fail(res.error)) &&
      (res.Executed? && res.rowsAffected.err != Nil ==> r.err == res.rowsAffected.err)
  {
    AffectedRows(exec(DeleteItemQuery(itemId)))
  }

  const InsertImageSql := Template(["INSERT INTO images(url) VALUES (", ");"])

  function InsertImageQuery(imageUrl: string): (q: Query)
    ensures Aligned(q) && q.text == InsertImageSql && q.args == [StrArg(imageUrl)]
  {
    TemplatePlaceholders(["INSERT INTO images(url) VALUES (", ");"]);
    Query(InsertImageSql, [StrArg(imageUrl)])
  }

  /** `InsertItemImage`: the id of the new image row, or `(0, err)`. */
  function InsertItemImage(imageUrl: string, exec: Query -> ExecResult): (r: Ret<int>)
    ensures var res := exec(InsertImageQuery(imageUrl));
      (r.err == Nil <==> res.Executed? && res.lastInsertId.err == Nil) &&
      (r.err == Nil ==> r.value == res.lastInsertId.value) &&
      (r.err != Nil ==> r.value == 0) &&
      (res.ExecFailed? ==> r.err == Fail(res.error)) &&
      (res.Executed? && res.lastInsertId.err != Nil ==> r.err == res.lastInsertId.err)
  {
    InsertedId(exec(InsertImageQuery(imageUrl)))
  }

  const JunctionInto := "INSERT INTO items_images(" + "item_id, image_id, display_order)"
  const JunctionFragments := [JunctionInto + " VALUES (", ", ", ", ", ");"]
  const InsertJunctionSql := Template(JunctionFragments)

  lemma JunctionIntoFree() ensures NoPlaceholder(JunctionInto) { }

  function JunctionQuery(itemId: int, imageId: int, displayOrder: int): (q: Query)
    ensures Aligned(q) && q.text == InsertJunctionSql
    ensures q.args == [IntArg(itemId), IntArg(imageId), IntArg(displayOrder)]
  {
    JunctionIntoFree();
    TemplatePlaceholders(JunctionFragments);
    Query(InsertJunctionSql, [IntArg(itemId), IntArg(imageId), IntArg(displayOrder)])
  }

  /**
   * `InsertItemImageJunction`: links an image to an item at a display
   * position. Unlike the other inserts it returns the rows affected, not
   * an id.
   */
  function InsertItemImageJunction(itemId: int, imageId: int, displayOrder: int, exec: Query -> ExecResult): (r: Ret<int>)
    ensures var res := exec(JunctionQuery(itemId, imageId, displayOrder));
      (r.err == Nil <==> res.Executed? && res.rowsAffected.err == Nil) &&
      (r.err == Nil ==> r.value == res.rowsAffected.value) &&
      (r.err != Nil ==> r.value == 0) &&
      (res.ExecFailed? ==> r.err == Fail(res.error)) &&
      (res.Executed? && res.rowsAffected.err != Nil ==> r.err == res.rowsAffected.err)
  {
    AffectedRows(exec(JunctionQuery(itemId, imageId, displayOrder)))
  }
}
