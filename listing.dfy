/**
 * The tax-rate listing page served at `/`: how the request's query parameters
 * become the page number, the sort column and direction, the filters, the
 * pagination links' prefix, the parameterised COUNT and SELECT queries, and
 * the view-model handed to the `home.html` template.
 */
module Listing {
  import opened Wrappers
  import opened UrlValues
  import opened Strconv
  import opened SqlRows
  import opened Responses

  /** Rows per page. */
  const PageSize: nat := 10

  /** The columns a client may sort by; anything else sorts by `id`. */
  const AllowedSort: set<string> := {"id", "tax_category_id", "start_date", "end_date", "rate_percent"}

  const VersionQuery: SqlQuery := SqlQuery("SELECT VERSION()", [])
  const CountPrefix: string := "SELECT COUNT(*) FROM sys_tax_rate"
  const SelectColumns: string := "id,tax_category_id," + "start_date,end_date,rate_percent"
  const SelectPrefix: string := "SELECT " + SelectColumns + " FROM sys_tax_rate"

  /** One row of `sys_tax_rate` as scanned. */
  datatype TaxRate = TaxRate(id: int, taxCategory: int, startDate: string, endDate: string, ratePercent: real)

  /** The raw filter values from the query string; "" means the filter is not applied. */
  datatype Filters = Filters(id: string, taxCategory: string, startDate: string, endDate: string, ratePercent: string)

  /** The view-model the template receives. */
  datatype PageData = PageData(
    version: string,
    taxRates: seq<TaxRate>,
    page: int,
    pageSize: int,
    total: nat,
    totalPages: int,
    prevPage: int,
    nextPage: int,
    sort: string,
    dir: string,
    filters: Filters,
    baseQueryPrefix: string)

  /** The zero value of the view-model, before any field is assigned. */
  const EmptyPageData: PageData :=
    PageData("", [], 0, 0, 0, 0, 0, 0, "", "", Filters("", "", "", "", ""), "")

  // ---------------------------------------------------------------------------
  // Reading the request

  /** The page asked for: the `page` parameter when it is a positive integer, otherwise 1. */
  function RequestedPage(p: string): (page: int)
    ensures page >= 1
    ensures page == 1 || Atoi(p) == Some(page)
    ensures Atoi(p).Some? && Atoi(p).value > 0 ==> page == Atoi(p).value
  {
    if p != "" && Atoi(p).Some? && Atoi(p).value > 0 then Atoi(p).value else 1
  }

  /** The decimal form of a positive page number is read back as that page. */
  lemma RequestedPageOfDecimal(n: nat)
    requires 1 <= n <= MaxInt
    ensures RequestedPage(Decimal(n)) == n
  {
    AtoiOfDecimal(n);
  }

  /** A missing, zero or negative `page` reads as page 1. */
  lemma RequestedPageDefaults(n: nat)
    requires n <= MaxInt
    ensures RequestedPage("") == 1
    ensures RequestedPage("0") == 1
    ensures RequestedPage("-" + Decimal(n)) == 1
  {
    AtoiOfNegativeDecimal(n);
    AtoiOfDecimal(0);
    assert Decimal(0) == "0";
  }

  /** A page parameter starting with `-` reads as page 1, however many zeros or digits follow. */
  lemma RequestedPageOfMinus(p: string)
    requires |p| >= 1 && p[0] == '-'
    ensures RequestedPage(p) == 1
  {
  }

  /** A page number beyond the 64-bit range reads as page 1, not as the last page. */
  lemma RequestedPageOutOfRange(s: string)
    requires |s| >= 1 && AllDigits(s) && DigitsValue(s) > MaxInt
    ensures RequestedPage(s) == 1 && RequestedPage("+" + s) == 1
  {
    AtoiOutOfRange(s);
  }

  /** A page parameter with anything but a digit after its first character reads as page 1. */
  lemma RequestedPageRejectsNonDigit(p: string, i: int)
    requires 1 <= i < |p| && !IsDigit(p[i])
    ensures RequestedPage(p) == 1
  {
    AtoiRejectsNonDigit(p, i);
  }

  /** The effective sort column: the requested one when whitelisted, else `id`. */
  function EffectiveSort(s: string): (r: string)
    ensures r in AllowedSort
    ensures s in AllowedSort ==> r == s
    ensures s !in AllowedSort ==> r == "id"
  {
    if s in AllowedSort then s else "id"
  }

  /** The effective direction: `asc` or `desc` as requested, anything else `asc`. */
  function EffectiveDir(d: string): (r: string)
    ensures r == "asc" || r == "desc"
    ensures d == "asc" || d == "desc" ==> r == d
    ensures d != "asc" && d != "desc" ==> r == "asc"
  {
    if d != "asc" && d != "desc" then "asc" else d
  }

  /** Whitelisting twice is whitelisting once. */
  lemma EffectiveSortDirIdempotent(s: string, d: string)
    ensures EffectiveSort(EffectiveSort(s)) == EffectiveSort(s)
    ensures EffectiveDir(EffectiveDir(d)) == EffectiveDir(d)
  {
  }

  /** The five filters, copied verbatim from the query string. */
  function ReadFilters(q: Values): (f: Filters)
    ensures f.id == Get(q, "id") && f.taxCategory == Get(q, "tax_category_id")
    ensures f.startDate == Get(q, "start_date") && f.endDate == Get(q, "end_date")
    ensures f.ratePercent == Get(q, "rate_percent")
  {
    Filters(Get(q, "id"), Get(q, "tax_category_id"), Get(q, "start_date"), Get(q, "end_date"), Get(q, "rate_percent"))
  }

  /**
   * The prefix pagination links append `page=N` to: every parameter but `page`,
   * encoded and followed by `&`, or just `?` when nothing else remains.
   */
  function LinkPrefix(q: Values): (r: string)
    ensures |r| >= 1 && r[0] == '?'
    ensures r == "?" <==> forall i :: 0 <= i < |q| ==> q[i].key == "page"
  {
    var rest := Del(q, "page");
    assert rest == [] <==> forall i :: 0 <= i < |q| ==> q[i].key == "page" by {
      if rest != [] {
        assert rest[0] in q;
      } else {
        forall i | 0 <= i < |q| ensures q[i].key == "page" {
          assert q[i] in q;
        }
      }
    }
    if rest == [] then "?" else "?" + Encode(rest) + "&"
  }

  /** The links' prefix carries every parameter other than `page` and never `page` itself. */
  lemma LinkPrefixParams(q: Values, key: string)
    requires key != "page"
    ensures LinkPrefix(q) != "?" ==> LinkPrefix(q) == "?" + Encode(Del(q, "page")) + "&"
    ensures Get(Del(q, "page"), key) == Get(q, key)
    ensures !Has(Del(q, "page"), "page")
  {
    DelKeepsOtherKeys(q, "page", key);
  }

  // ---------------------------------------------------------------------------
  // The WHERE clause

  /** The filterable columns. */
  datatype Column = Id | TaxCategoryId | StartDate | EndDate | RatePercent

  function ColumnName(c: Column): (name: string)
    ensures '?' !in name
  {
    match c
    case Id => "id"
    case TaxCategoryId => "tax_category_id"
    case StartDate => "start_date"
    case EndDate => "end_date"
    case RatePercent => "rate_percent"
  }

  /** A column's position in the fixed filter order id, tax category, start, end, rate. */
  function Rank(c: Column): nat
  {
    match c
    case Id => 0
    case TaxCategoryId => 1
    case StartDate => 2
    case EndDate => 3
    case RatePercent => 4
  }

  /** Date columns are matched as substrings (`LIKE`), the others exactly (`=`). */
  predicate IsDateColumn(c: Column)
  {
    c == StartDate || c == EndDate
  }

  function FilterValue(f: Filters, c: Column): string
  {
    match c
    case Id => f.id
    case TaxCategoryId => f.taxCategory
    case StartDate => f.startDate
    case EndDate => f.endDate
    case RatePercent => f.ratePercent
  }

  predicate NoFilter(f: Filters)
  {
    f.id == "" && f.taxCategory == "" && f.startDate == "" && f.endDate == "" && f.ratePercent == ""
  }

  /** The columns whose filter is set, each once, in the fixed filter order. */
  function Active(f: Filters): (r: seq<Column>)
    ensures |r| <= 5
    ensures r == [] <==> NoFilter(f)
  {
    var p1 := AppendIfSet(f, [], Id);
    var p2 := AppendIfSet(f, p1, TaxCategoryId);
    var p3 := AppendIfSet(f, p2, StartDate);
    var p4 := AppendIfSet(f, p3, EndDate);
    AppendIfSet(f, p4, RatePercent)
  }

  /** `cols`, followed by `c` when its filter is set. */
  function AppendIfSet(f: Filters, cols: seq<Column>, c: Column): seq<Column>
  {
    if FilterValue(f, c) != "" then cols + [c] else cols
  }

  /** Every set filter contributes one condition, no other does, and conditions follow the fixed order. */
  lemma ActiveExactlyTheSetFilters(f: Filters)
    ensures forall c :: c in Active(f) <==> FilterValue(f, c) != ""
    ensures forall i, j :: 0 <= i < j < |Active(f)| ==> Rank(Active(f)[i]) < Rank(Active(f)[j])
  {
    var p1 := AppendIfSet(f, [], Id);
    var p2 := AppendIfSet(f, p1, TaxCategoryId);
    var p3 := AppendIfSet(f, p2, StartDate);
    var p4 := AppendIfSet(f, p3, EndDate);
    AppendIfSetKeepsOrder(f, [], Id);
    AppendIfSetKeepsOrder(f, p1, TaxCategoryId);
    AppendIfSetKeepsOrder(f, p2, StartDate);
    AppendIfSetKeepsOrder(f, p3, EndDate);
    AppendIfSetKeepsOrder(f, p4, RatePercent);
  }

  /** Appending a column of higher rank than all before it keeps the columns in order. */
  lemma AppendIfSetKeepsOrder(f: Filters, cols: seq<Column>, c: Column)
    requires forall i, j :: 0 <= i < j < |cols| ==> Rank(cols[i]) < Rank(cols[j])
    requires forall x :: x in cols ==> Rank(x) < Rank(c)
    ensures forall i, j :: 0 <= i < j < |AppendIfSet(f, cols, c)| ==>
      Rank(AppendIfSet(f, cols, c)[i]) < Rank(AppendIfSet(f, cols, c)[j])
    ensures forall x :: x in AppendIfSet(f, cols, c) <==> x in cols || (x == c && FilterValue(f, c) != "")
    ensures forall x :: x in AppendIfSet(f, cols, c) ==> Rank(x) <= Rank(c)
  {
    var r := AppendIfSet(f, cols, c);
    if FilterValue(f, c) != "" {
      forall i, j | 0 <= i < j < |r| ensures Rank(r[i]) < Rank(r[j]) {
        assert r[i] in cols;
      }
    }
  }

  /** The SQL condition for one set filter. */
  function ClauseText(c: Column): (s: string)
    ensures Placeholders(s) == 1
  {
    var suffix := if IsDateColumn(c) then " LIKE ?" else " = ?";
    OnePlaceholder(suffix);
    NoPlaceholders(ColumnName(c));
    PlaceholdersAppend(ColumnName(c), suffix);
    ColumnName(c) + suffix
  }

  /** The argument bound to a filter's placeholder: date values wrapped in `%`, the others verbatim. */
  function BindArg(f: Filters, c: Column): Arg
  {
    Text(if IsDateColumn(c) then "%" + FilterValue(f, c) + "%" else FilterValue(f, c))
  }

  /** The conditions for `cols`, in order. */
  function Clauses(cols: seq<Column>): (cl: seq<string>)
    ensures |cl| == |cols|
  {
    if cols == [] then [] else [ClauseText(cols[0])] + Clauses(cols[1..])
  }

  /** The arguments for `cols`, in order. */
  function Binds(f: Filters, cols: seq<Column>): (args: seq<Arg>)
    ensures |args| == |cols|
  {
    if cols == [] then [] else [BindArg(f, cols[0])] + Binds(f, cols[1..])
  }

  /** The WHERE text shared by the COUNT and the SELECT query. */
  function WhereSql(f: Filters): (r: string)
    ensures r == "" <==> NoFilter(f)
    ensures r != "" ==> |r| > 7 && r[..7] == " WHERE "
  {
    if Active(f) == [] then "" else " WHERE " + Join(Clauses(Active(f)), " AND ")
  }

  /** The arguments of the WHERE placeholders, one per set filter, in the fixed filter order. */
  function WhereArgs(f: Filters): (args: seq<Arg>)
    ensures |args| == |Active(f)|
  {
    Binds(f, Active(f))
  }

  /** The WHERE text is empty exactly when no filter is set. */
  lemma WhereEmptyIffNoFilter(f: Filters)
    ensures WhereSql(f) == "" <==> NoFilter(f)
    ensures WhereArgs(f) == [] <==> NoFilter(f)
  {
    if !NoFilter(f) {
      assert |WhereSql(f)| >= |" WHERE "|;
    }
  }

  /** The WHERE text holds exactly one placeholder per argument. */
  lemma WhereAligned(f: Filters)
    ensures Placeholders(WhereSql(f)) == |WhereArgs(f)|
  {
    if Active(f) != [] {
      NoPlaceholders(" WHERE ");
      NoPlaceholders(" AND ");
      ClausesOnePlaceholderEach(Active(f));
      JoinPlaceholders(Clauses(Active(f)), " AND ");
      PlaceholdersAppend(" WHERE ", Join(Clauses(Active(f)), " AND "));
    }
  }

  /** The WHERE arguments spelled out: date filters wrapped in `%`, the others verbatim, in the fixed order. */
  lemma WhereArgsSpelledOut(f: Filters)
    ensures WhereArgs(f) ==
      (if f.id != "" then [Text(f.id)] else []) +
      (if f.taxCategory != "" then [Text(f.taxCategory)] else []) +
      (if f.startDate != "" then [Text("%" + f.startDate + "%")] else []) +
      (if f.endDate != "" then [Text("%" + f.endDate + "%")] else []) +
      (if f.ratePercent != "" then [Text(f.ratePercent)] else [])
  {
    var p1 := AppendIfSet(f, [], Id);
    var p2 := AppendIfSet(f, p1, TaxCategoryId);
    var p3 := AppendIfSet(f, p2, StartDate);
    var p4 := AppendIfSet(f, p3, EndDate);
    var b1: seq<Arg> := if f.id != "" then [Text(f.id)] else [];
    var b2: seq<Arg> := if f.taxCategory != "" then [Text(f.taxCategory)] else [];
    var b3: seq<Arg> := if f.startDate != "" then [Text("%" + f.startDate + "%")] else [];
    var b4: seq<Arg> := if f.endDate != "" then [Text("%" + f.endDate + "%")] else [];
    var b5: seq<Arg> := if f.ratePercent != "" then [Text(f.ratePercent)] else [];
    assert Binds(f, p1) == b1 by { SnocIfSet(f, [], Id); }
    assert Binds(f, p2) == b1 + b2 by { SnocIfSet(f, p1, TaxCategoryId); }
    assert Binds(f, p3) == b1 + b2 + b3 by { SnocIfSet(f, p2, StartDate); }
    assert Binds(f, p4) == b1 + b2 + b3 + b4 by { SnocIfSet(f, p3, EndDate); }
    SnocIfSet(f, p4, RatePercent);
  }

  /** Appending a column when its filter is set appends its argument under the same condition. */
  lemma SnocIfSet(f: Filters, cols: seq<Column>, c: Column)
    ensures Binds(f, AppendIfSet(f, cols, c)) ==
      Binds(f, cols) + if FilterValue(f, c) != "" then [BindArg(f, c)] else []
  {
    if FilterValue(f, c) != "" {
      Snoc(f, cols, c);
    } else {
      assert Binds(f, cols) + [] == Binds(f, cols);
    }
  }

  lemma {:induction false} BindsAppend(f: Filters, a: seq<Column>, b: seq<Column>)
    ensures Binds(f, a + b) == Binds(f, a) + Binds(f, b)
  {
    if a == [] {
      assert a + b == b;
    } else {
      assert (a + b)[1..] == a[1..] + b;
      BindsAppend(f, a[1..], b);
    }
  }

  lemma {:induction false} ClausesAppend(a: seq<Column>, b: seq<Column>)
    ensures Clauses(a + b) == Clauses(a) + Clauses(b)
  {
    if a == [] {
      assert a + b == b;
    } else {
      assert (a + b)[1..] == a[1..] + b;
      ClausesAppend(a[1..], b);
    }
  }

  /** Appending one column appends its condition and its argument. */
  lemma Snoc(f: Filters, cols: seq<Column>, c: Column)
    ensures Clauses(cols + [c]) == Clauses(cols) + [ClauseText(c)]
    ensures Binds(f, cols + [c]) == Binds(f, cols) + [BindArg(f, c)]
  {
    ClausesAppend(cols, [c]);
    BindsAppend(f, cols, [c]);
  }

  /** Each condition holds exactly one placeholder. */
  lemma {:induction false} ClausesOnePlaceholderEach(cols: seq<Column>)
    ensures forall i :: 0 <= i < |cols| ==> Placeholders(Clauses(cols)[i]) == 1
  {
    forall i | 0 <= i < |cols| ensures Placeholders(Clauses(cols)[i]) == 1 {
      ClauseAt(cols, i);
    }
  }

  /** The i-th condition is the condition of the i-th column. */
  lemma {:induction false} ClauseAt(cols: seq<Column>, i: int)
    requires 0 <= i < |cols|
    ensures Clauses(cols)[i] == ClauseText(cols[i])
  {
    if i > 0 {
      ClauseAt(cols[1..], i - 1);
    }
  }

  /** The condition texts, written out as the SQL the handler sends. */
  lemma ClauseTextsSpelledOut()
    ensures ClauseText(Id) == "id = ?"
    ensures ClauseText(TaxCategoryId) == "tax_category_id = ?"
    ensures ClauseText(StartDate) == "start_date LIKE ?"
    ensures ClauseText(EndDate) == "end_date LIKE ?"
    ensures ClauseText(RatePercent) == "rate_percent = ?"
  {
  }

  /** Two set filters give two conditions joined by " AND ", in the fixed filter order. */
  lemma WhereSqlTwoFilters()
    ensures WhereSql(Filters("7", "", "2024", "", "")) == " WHERE " + "id = ? AND start_date LIKE ?"
  {
    TwoFiltersActive();
    TwoFiltersClauses();
    assert Join(["id = ?", "start_date LIKE ?"], " AND ") == "id = ? AND start_date LIKE ?";
  }

  /** With the id and start-date filters set, exactly those two columns are active. */
  lemma TwoFiltersActive()
    ensures Active(Filters("7", "", "2024", "", "")) == [Id, StartDate]
  {
    var f := Filters("7", "", "2024", "", "");
    assert AppendIfSet(f, [], Id) == [Id];
    assert AppendIfSet(f, [Id], TaxCategoryId) == [Id];
  }

  /** The conditions for the id and start-date columns. */
  lemma TwoFiltersClauses()
    ensures Clauses([Id, StartDate]) == ["id = ?", "start_date LIKE ?"]
  {
    ClauseTextsSpelledOut();
    assert [Id, StartDate][1..] == [StartDate];
  }

  /**
   * The WHERE builder of `NewHomeHandler`: one clause and one argument per set filter, appended in
   * the fixed order, then joined into the WHERE text.
   */
  method BuildWhere(f: Filters) returns (clauses: seq<string>, whereArgs: seq<Arg>, where: string)
    ensures clauses == Clauses(Active(f))
    ensures whereArgs == WhereArgs(f)
    ensures where == WhereSql(f)
    ensures Placeholders(where) == |whereArgs|
  {
    ClauseTextsSpelledOut();
    // The filters set so far, in order, after each of the five steps.
    ghost var p1 := AppendIfSet(f, [], Id);
    ghost var p2 := AppendIfSet(f, p1, TaxCategoryId);
    ghost var p3 := AppendIfSet(f, p2, StartDate);
    ghost var p4 := AppendIfSet(f, p3, EndDate);
    ghost var p5 := AppendIfSet(f, p4, RatePercent);
    where := "";
    whereArgs := [];
    clauses := [];
    if f.id != "" {
      clauses := clauses + ["id = ?"];
      whereArgs := whereArgs + [Text(f.id)];
    }
    assert clauses == Clauses(p1) && whereArgs == Binds(f, p1);
    if f.taxCategory != "" {
      Snoc(f, p1, TaxCategoryId);
      clauses := clauses + ["tax_category_id = ?"];
      whereArgs := whereArgs + [Text(f.taxCategory)];
    }
    assert clauses == Clauses(p2) && whereArgs == Binds(f, p2);
    if f.startDate != "" {
      Snoc(f, p2, StartDate);
      clauses := clauses + ["start_date LIKE ?"];
      whereArgs := whereArgs + [Text("%" + f.startDate + "%")];
    }
    assert clauses == Clauses(p3) && whereArgs == Binds(f, p3);
    if f.endDate != "" {
      Snoc(f, p3, EndDate);
      clauses := clauses + ["end_date LIKE ?"];
      whereArgs := whereArgs + [Text("%" + f.endDate + "%")];
    }
    assert clauses == Clauses(p4) && whereArgs == Binds(f, p4);
    if f.ratePercent != "" {
      Snoc(f, p4, RatePercent);
      clauses := clauses + ["rate_percent = ?"];
      whereArgs := whereArgs + [Text(f.ratePercent)];
    }
    assert clauses == Clauses(p5) && whereArgs == Binds(f, p5);
    assert Active(f) == p5;
    if |clauses| > 0 {
      where := " WHERE " + Join(clauses, " AND ");
    }
    WhereAligned(f);
  }

  // ---------------------------------------------------------------------------
  // The queries

  /** The COUNT query: the shared WHERE text and arguments, and no placeholder of its own. */
  function CountQuery(f: Filters): (q: SqlQuery)
    ensures q.args == WhereArgs(f)
    ensures Placeholders(q.text) == Placeholders(WhereSql(f))
  {
    NoPlaceholders(CountPrefix);
    PlaceholdersAppend(CountPrefix, WhereSql(f));
    SqlQuery(CountPrefix + WhereSql(f), WhereArgs(f))
  }

  /** The page query: the shared WHERE text, the whitelisted ORDER BY, then LIMIT and OFFSET as arguments. */
  function SelectQuery(f: Filters, sort: string, dir: string, offset: int): (q: SqlQuery)
    ensures q.args == CountQuery(f).args + [Int(PageSize), Int(offset)]
    ensures Placeholders(q.text) == Placeholders(WhereSql(f)) + Placeholders(OrderAndLimit(sort, dir))
  {
    SelectPrefixHasNoPlaceholders();
    PlaceholdersAppend(SelectPrefix, WhereSql(f));
    PlaceholdersAppend(SelectPrefix + WhereSql(f), OrderAndLimit(sort, dir));
    SqlQuery(SelectPrefix + WhereSql(f) + OrderAndLimit(sort, dir), WhereArgs(f) + [Int(PageSize), Int(offset)])
  }

  /**
   * The tail of the page query: the sort column and direction interpolated,
   * LIMIT and OFFSET as placeholders. It holds two placeholders of its own,
   * plus any the interpolated text brings in.
   */
  function OrderAndLimit(sort: string, dir: string): (r: string)
    ensures Placeholders(r) == Placeholders(sort) + Placeholders(dir) + 2
  {
    var limit := " LIMIT ? OFFSET ?";
    assert limit == " LIMIT ?" + " OFFSET ?";
    NoPlaceholders(" ORDER BY ");
    NoPlaceholders(" ");
    OnePlaceholder(" LIMIT ?");
    OnePlaceholder(" OFFSET ?");
    PlaceholdersAppend(" LIMIT ?", " OFFSET ?");
    PlaceholdersAppend(" ORDER BY ", sort);
    PlaceholdersAppend(" ORDER BY " + sort, " ");
    PlaceholdersAppend(" ORDER BY " + sort + " ", dir);
    PlaceholdersAppend(" ORDER BY " + sort + " " + dir, limit);
    " ORDER BY " + sort + " " + dir + limit
  }

  lemma SelectPrefixHasNoPlaceholders()
    ensures Placeholders(SelectPrefix) == 0
  {
    NoPlaceholders("SELECT ");
    NoPlaceholders("id,tax_category_id,");
    NoPlaceholders("start_date,end_date,rate_percent");
    PlaceholdersAppend("id,tax_category_id,", "start_date,end_date,rate_percent");
    NoPlaceholders(" FROM sys_tax_rate");
    PlaceholdersAppend("SELECT ", SelectColumns);
    PlaceholdersAppend("SELECT " + SelectColumns, " FROM sys_tax_rate");
  }

  /** With a whitelisted sort column and direction, the query's tail holds exactly the LIMIT and OFFSET placeholders. */
  lemma OrderAndLimitPlaceholders(sort: string, dir: string)
    requires sort in AllowedSort && (dir == "asc" || dir == "desc")
    ensures Placeholders(OrderAndLimit(sort, dir)) == 2
  {
    WhitelistHasNoPlaceholders(sort, dir);
  }

  /** No whitelisted sort column or direction holds a `?`. */
  lemma WhitelistHasNoPlaceholders(sort: string, dir: string)
    requires sort in AllowedSort && (dir == "asc" || dir == "desc")
    ensures Placeholders(sort) == 0 && Placeholders(dir) == 0
  {
    NoPlaceholders(dir);
    if sort == "tax_category_id" {
      NoPlaceholders("tax_category_id");
    } else if sort == "rate_percent" {
      NoPlaceholders("rate_percent");
    } else {
      NoPlaceholders(sort);
    }
  }

  /** The version query has neither a placeholder nor an argument. */
  lemma VersionQueryAligned()
    ensures Aligned(VersionQuery)
  {
    NoPlaceholders(VersionQuery.text);
  }

  /** The COUNT query binds one argument per placeholder. */
  lemma CountQueryAligned(f: Filters)
    ensures Aligned(CountQuery(f))
  {
    WhereAligned(f);
  }

  /**
   * The page query binds one argument per placeholder, provided the sort
   * column and direction come from the whitelist; it reuses the COUNT query's
   * arguments and adds the page size and the offset.
   */
  lemma SelectQueryAligned(f: Filters, sort: string, dir: string, offset: int)
    requires sort in AllowedSort && (dir == "asc" || dir == "desc")
    ensures Aligned(SelectQuery(f, sort, dir, offset))
    ensures SelectQuery(f, sort, dir, offset).args == CountQuery(f).args + [Int(PageSize), Int(offset)]
  {
    WhereAligned(f);
    OrderAndLimitPlaceholders(sort, dir);
  }

  // ---------------------------------------------------------------------------
  // Pagination

  /** Page counters as the template shows them. */
  datatype Pagination = Pagination(page: int, totalPages: int, prevPage: int, nextPage: int)

  /**
   * What the page counters mean. With no rows: no pages, no links, and the
   * requested page left as it was. Otherwise: enough pages of `PageSize` rows
   * for every row and no empty page, the requested page clamped into range,
   * and links to the neighbouring pages that exist (0 for none).
   */
  predicate ValidPagination(total: nat, requested: int, p: Pagination)
  {
    if total == 0 then
      p == Pagination(requested, 0, 0, 0)
    else
      (p.totalPages - 1) * PageSize < total <= p.totalPages * PageSize &&
      1 <= p.page <= p.totalPages &&
      (if requested > p.totalPages then p.page == p.totalPages else p.page == requested) &&
      p.prevPage == (if p.page > 1 then p.page - 1 else 0) &&
      p.nextPage == (if p.page < p.totalPages then p.page + 1 else 0)
  }

  /** The offset of the first row of a page. */
  function Offset(p: Pagination): (r: int)
    ensures p.page >= 1 ==> r >= 0
    ensures r % PageSize == 0 && r / PageSize == p.page - 1
  {
    (p.page - 1) * PageSize
  }

  /** A page that has rows starts at an offset inside the result set. */
  lemma OffsetInRange(total: nat, requested: int, p: Pagination)
    requires total > 0 && ValidPagination(total, requested, p)
    ensures 0 <= Offset(p) < total
    ensures Offset(p) % PageSize == 0
  {
  }

  /** The counters are determined by the row count and the requested page. */
  lemma PaginationUnique(total: nat, requested: int, p: Pagination, p': Pagination)
    requires ValidPagination(total, requested, p) && ValidPagination(total, requested, p')
    ensures p == p'
  {
  }

  /** 25 rows, page 5 asked for: three pages, the last one shown, starting at row 20. */
  lemma PaginationExample(p: Pagination)
    requires ValidPagination(25, 5, p)
    ensures p == Pagination(3, 3, 2, 0) && Offset(p) == 20
  {
  }

  /**
   * The pagination step of `NewHomeHandler`: no pages when there are no rows; otherwise the ceiling of
   * `total / PageSize` pages, the page clamped down to the last one, and the
   * previous and next links.
   */
  method Paginate(total: nat, requested: int) returns (p: Pagination)
    requires requested >= 1
    ensures ValidPagination(total, requested, p)
  {
    var page := requested;
    if total == 0 {
      return Pagination(page, 0, 0, 0);
    }
    var totalPages := (total + PageSize - 1) / PageSize;
    if page > totalPages {
      page := totalPages;
    }
    var prevPage, nextPage := 0, 0;
    if page > 1 {
      prevPage := page - 1;
    }
    if page < totalPages {
      nextPage := page + 1;
    }
    p := Pagination(page, totalPages, prevPage, nextPage);
  }

  // ---------------------------------------------------------------------------
  // The handler

  /** The view-model's page counters. */
  function PaginationOf(d: PageData): Pagination
  {
    Pagination(d.page, d.totalPages, d.prevPage, d.nextPage)
  }

  /**
   * A rendered page reflects the request: the effective sort and direction,
   * the filters as given, the links' prefix, and page counters that are valid
   * for the row count and the page asked for.
   */
  predicate ReflectsRequest(d: PageData, q: Values)
  {
    d.pageSize == PageSize &&
    d.sort == EffectiveSort(Get(q, "sort")) &&
    d.dir == EffectiveDir(Get(q, "dir")) &&
    d.filters == ReadFilters(q) &&
    d.baseQueryPrefix == LinkPrefix(q) &&
    ValidPagination(d.total, RequestedPage(Get(q, "page")), PaginationOf(d))
  }

  /**
   * The part of the view-model `NewHomeHandler` reads from the request, before
   * any query runs: the page asked for, the whitelisted sort and direction,
   * the filters, and the prefix that keeps them in pagination links.
   */
  method ReadRequest(q: Values) returns (data: PageData)
    ensures data.page == RequestedPage(Get(q, "page")) && data.pageSize == PageSize
    ensures data.sort == EffectiveSort(Get(q, "sort")) && data.dir == EffectiveDir(Get(q, "dir"))
    ensures data.sort in AllowedSort && (data.dir == "asc" || data.dir == "desc")
    ensures data.filters == ReadFilters(q)
    ensures data.baseQueryPrefix == LinkPrefix(q)
    ensures data.version == "" && data.taxRates == [] && data.total == 0
  {
    data := EmptyPageData;
    var page := RequestedPage(Get(q, "page"));
    data := data.(page := page, pageSize := PageSize);

    var sortParam := Get(q, "sort");
    var dirParam := Get(q, "dir");
    if sortParam !in AllowedSort {
      sortParam := "id";
    }
    if dirParam != "asc" && dirParam != "desc" {
      dirParam := "asc";
    }
    data := data.(sort := sortParam, dir := dirParam);

    var f := ReadFilters(q);
    data := data.(filters := f);

    var vals := Del(q, "page");
    var base := Encode(vals);
    if base != "" {
      data := data.(baseQueryPrefix := "?" + base + "&");
    } else {
      data := data.(baseQueryPrefix := "?");
    }
  }

  /**
   * The handler `NewHomeHandler` returns. The database is represented by its
   * answers: `version` to `SELECT VERSION()`, `count` to the COUNT query and
   * `answer` to the page query; `issued` lists the queries sent, in order.
   */
  method Home(q: Values, version: Result<string, string>, count: Result<nat, string>, answer: QueryAnswer<TaxRate>)
    returns (resp: Response<PageData>, issued: seq<SqlQuery>)
    ensures 1 <= |issued| <= 3 && issued[0] == VersionQuery
    ensures version.Failure? ==>
      |issued| == 1 && resp == HttpError(StatusInternalServerError, "Database error: " + version.error)
    ensures version.Success? ==> |issued| >= 2 && issued[1] == CountQuery(ReadFilters(q))
    ensures version.Success? && count.Failure? ==>
      |issued| == 2 && resp == HttpError(StatusInternalServerError, "Count query error: " + count.error)
    ensures version.Success? && count == Success(0) ==>
      |issued| == 2 && resp.Rendered? && resp.data.taxRates == [] && resp.data.totalPages == 0
    ensures version.Success? && count.Success? && count.value > 0 ==>
      |issued| == 3 &&
      exists p :: ValidPagination(count.value, RequestedPage(Get(q, "page")), p) &&
        issued[2] == SelectQuery(ReadFilters(q), EffectiveSort(Get(q, "sort")), EffectiveDir(Get(q, "dir")), Offset(p))
    ensures version.Success? && count.Success? && count.value > 0 && answer.QueryFailed? ==>
      resp == HttpError(StatusInternalServerError, "Database query error: " + answer.message)
    ensures version.Success? && count.Success? && count.value > 0 && answer.Rows? && StreamError(answer.stream).None? ==>
      resp.Rendered?
    ensures version.Success? && count.Success? && count.value > 0 && answer.Rows? ==>
      (resp.HttpError? <==> StreamError(answer.stream).Some?) &&
      (resp.HttpError? ==> resp == HttpError(StatusInternalServerError, StreamError(answer.stream).value))
    ensures resp.Rendered? ==>
      resp.template == "home.html" && version.Success? && count.Success? &&
      resp.data.version == version.value && resp.data.total == count.value &&
      ReflectsRequest(resp.data, q)
    ensures resp.Rendered? && count.Success? && count.value > 0 ==>
      answer.Rows? && |resp.data.taxRates| == |answer.stream.scans| &&
      (forall i :: 0 <= i < |answer.stream.scans| ==> resp.data.taxRates[i] == answer.stream.scans[i].value) &&
      issued[2] == SelectQuery(resp.data.filters, resp.data.sort, resp.data.dir, Offset(PaginationOf(resp.data)))
  {
    var data := ReadRequest(q);
    var page := data.page;
    var f := data.filters;
    var sortParam, dirParam := data.sort, data.dir;

    issued := [VersionQuery];
    if version.Failure? {
      resp := HttpError(StatusInternalServerError, "Database error: " + version.error);
      return;
    }
    data := data.(version := version.value);

    var clauses, whereArgs, where := BuildWhere(f);
    issued := issued + [SqlQuery(CountPrefix + where, whereArgs)];
    assert issued == [VersionQuery, CountQuery(f)];
    if count.Failure? {
      resp := HttpError(StatusInternalServerError, "Count query error: " + count.error);
      return;
    }
    var total := count.value;
    data := data.(total := total);

    var pages := Paginate(total, page);
    data := data.(page := pages.page, totalPages := pages.totalPages,
                  prevPage := pages.prevPage, nextPage := pages.nextPage);
    if total == 0 {
      resp := Rendered("home.html", data);
      return;
    }

    var offset := (pages.page - 1) * PageSize;
    issued := issued + [SqlQuery(SelectPrefix + where + OrderAndLimit(sortParam, dirParam), whereArgs + [Int(PageSize), Int(offset)])];
    assert issued == [VersionQuery, CountQuery(f), SelectQuery(f, sortParam, dirParam, Offset(pages))];
    assert ValidPagination(total, RequestedPage(Get(q, "page")), pages);

    match answer
    case QueryFailed(message, _) =>
      resp := HttpError(StatusInternalServerError, "Database query error: " + message);
    case Rows(stream) =>
      var collected := Collect(stream, (r: TaxRate) => r);
      if collected.Failure? {
        resp := HttpError(StatusInternalServerError, collected.error);
        return;
      }
      data := data.(taxRates := collected.value);
      resp := Rendered("home.html", data);
  }
}
