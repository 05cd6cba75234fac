/**
 * The product screen: the product master grid, the typed and saved searches
 * that narrow it to the products the backend returns keys for, and the
 * Business Unit / Is New dropdowns over those results.
 */
module ProductScreen {
  import opened Wrappers
  import opened Text
  import opened Seqs
  import Sorting
  import opened Paging
  import opened Csv
  import opened Backend
  import opened QueryFragments

  datatype Product = Product(
    ProductID: string, ProductDescr: string, Level: string, BusinessUnit: string,
    IsDailyForecastRequired: string, IsNew: string, ProductFamily: string)

  /** The sortable columns (`keyof IProduct`). */
  datatype Column = ProductID | ProductDescr | Level | BusinessUnit | IsDailyForecastRequired | IsNew | ProductFamily

  function Cell(p: Product, c: Column): string {
    match c
    case ProductID => p.ProductID
    case ProductDescr => p.ProductDescr
    case Level => p.Level
    case BusinessUnit => p.BusinessUnit
    case IsDailyForecastRequired => p.IsDailyForecastRequired
    case IsNew => p.IsNew
    case ProductFamily => p.ProductFamily
  }

  /** The keys of a loaded row, in the order the loader builds it. */
  const Header: seq<string> :=
    ["ProductID", "ProductDescr", "Level", "BusinessUnit", "IsDailyForecastRequired", "IsNew", "ProductFamily"]

  /** A row's cells in header order. */
  function Cells(p: Product): seq<string> {
    [p.ProductID, p.ProductDescr, p.Level, p.BusinessUnit, p.IsDailyForecastRequired, p.IsNew, p.ProductFamily]
  }

  /** A raw backend row's fields in header order, a missing one as `''`. */
  function RawCells(r: RawRow): seq<string> {
    seq(|Header|, k requires 0 <= k < |Header| => FieldOr(r, Header[k]))
  }

  /** The loader's normalisation of one backend row. */
  function ToProduct(r: RawRow): Product {
    Product(FieldOr(r, "ProductID"), FieldOr(r, "ProductDescr"), FieldOr(r, "Level"), FieldOr(r, "BusinessUnit"),
            FieldOr(r, "IsDailyForecastRequired"), FieldOr(r, "IsNew"), FieldOr(r, "ProductFamily"))
  }

  /** A loaded row holds, column for column, the backend row's field of that name. */
  lemma ToProductKeepsFields(r: RawRow)
    ensures Cells(ToProduct(r)) == RawCells(r)
  {
    assert Header[0] == "ProductID" && Header[1] == "ProductDescr" && Header[2] == "Level";
    assert Header[3] == "BusinessUnit" && Header[4] == "IsDailyForecastRequired";
    assert Header[5] == "IsNew" && Header[6] == "ProductFamily";
  }

  function BusinessUnitOf(p: Product): string { p.BusinessUnit }
  function IsNewOf(p: Product): string { p.IsNew }
  function NonEmpty(s: string): bool { s != "" }
  function Identity(s: string): string { s }

  /** `[...new Set(values.filter(Boolean))].sort()`. */
  function DistinctSorted(values: seq<string>): seq<string> {
    Sorting.SortBy(Distinct(Filter(values, NonEmpty)), Identity, true)
  }

  /** The dropdown lists hold each non-empty value once, in ascending order. */
  lemma DistinctSortedLists(values: seq<string>)
    ensures forall x :: x in DistinctSorted(values) <==> x in values && x != ""
    ensures NoDuplicates(DistinctSorted(values))
    ensures Sorting.SortedBy(DistinctSorted(values), Identity, true)
  {
    var f := Filter(values, NonEmpty);
    FilterSpec(values, NonEmpty);
    var d := Distinct(f);
    DistinctSpec(f);
    var r := Sorting.SortBy(d, Identity, true);
    Sorting.SortBySpec(d, Identity, true);
    assert r == DistinctSorted(values);
    forall x ensures x in r <==> x in values && x != "" {
      assert x in r <==> x in multiset(r);
      assert x in d <==> x in multiset(d);
    }
    PermutationKeepsNoDuplicates(d, r);
  }

  /**
   * Those three properties pin the list down: any list holding each non-empty
   * value once, in ascending order, is the dropdown list.
   */
  lemma DistinctSortedUnique(values: seq<string>, s: seq<string>)
    requires forall x :: x in s <==> x in values && x != ""
    requires NoDuplicates(s)
    requires Sorting.SortedBy(s, Identity, true)
    ensures s == DistinctSorted(values)
  {
    DistinctSortedLists(values);
    AscendingListsEqual(s, DistinctSorted(values));
  }

  /** Two duplicate-free ascending lists with the same elements are equal. */
  lemma {:induction false} AscendingListsEqual(a: seq<string>, b: seq<string>)
    requires forall x :: x in a <==> x in b
    requires NoDuplicates(a) && NoDuplicates(b)
    requires Sorting.SortedBy(a, Identity, true) && Sorting.SortedBy(b, Identity, true)
    ensures a == b
    decreases |a|
  {
    if a == [] {
      HasElementUnlessEmpty(b);
    } else {
      assert a[0] in a;
      assert b != [];
      AscendingHeadsEqual(a, b);
      SameTailElements(a, b);
      AscendingTail(a);
      AscendingTail(b);
      AscendingListsEqual(a[1..], b[1..]);
      assert a == [a[0]] + a[1..] && b == [b[0]] + b[1..];
    }
  }

  /** A list that is not empty holds some element. */
  lemma HasElementUnlessEmpty(s: seq<string>)
    ensures s == [] || exists x :: x in s
  {
    if s != [] {
      assert s[0] in s;
    }
  }

  /** Both lists start with their least element, which is then the same. */
  lemma AscendingHeadsEqual(a: seq<string>, b: seq<string>)
    requires a != [] && b != []
    requires forall x :: x in a <==> x in b
    requires Sorting.SortedBy(a, Identity, true) && Sorting.SortedBy(b, Identity, true)
    ensures a[0] == b[0]
  {
    assert a[0] in a && b[0] in b;
    var i :| 0 <= i < |a| && a[i] == b[0];
    var j :| 0 <= j < |b| && b[j] == a[0];
    if i != 0 && j != 0 {
      assert Sorting.Before(Identity(a[0]), Identity(a[i]), true);
      assert Sorting.Before(Identity(b[0]), Identity(b[j]), true);
      Sorting.LexLeAntisymmetric(a[0], b[0]);
    }
  }

  /** Without duplicates, dropping a shared head leaves the same elements. */
  lemma SameTailElements(a: seq<string>, b: seq<string>)
    requires a != [] && b != [] && a[0] == b[0]
    requires forall x :: x in a <==> x in b
    requires NoDuplicates(a) && NoDuplicates(b)
    ensures forall x :: x in a[1..] <==> x in b[1..]
  {
    forall x | x in a[1..] ensures x in b[1..] {
      var k :| 0 <= k < |a[1..]| && a[1..][k] == x;
      assert a[k + 1] == x && a[0] != x;
      assert x in a;
      var m :| 0 <= m < |b| && b[m] == x;
      assert m != 0 && b[1..][m - 1] == x;
    }
    forall x | x in b[1..] ensures x in a[1..] {
      var k :| 0 <= k < |b[1..]| && b[1..][k] == x;
      assert b[k + 1] == x && b[0] != x;
      assert x in b;
      var m :| 0 <= m < |a| && a[m] == x;
      assert m != 0 && a[1..][m - 1] == x;
    }
  }

  /** The tail of a duplicate-free ascending list is one too. */
  lemma AscendingTail(a: seq<string>)
    requires a != []
    requires NoDuplicates(a) && Sorting.SortedBy(a, Identity, true)
    ensures NoDuplicates(a[1..]) && Sorting.SortedBy(a[1..], Identity, true)
  {
    forall i, j | 0 <= i < j < |a[1..]| ensures Sorting.Before(Identity(a[1..][i]), Identity(a[1..][j]), true) {
      assert a[1..][i] == a[i + 1] && a[1..][j] == a[j + 1];
    }
  }

  // ----- Field registry and query building -----

  /** The tags `savedQueryHasProductField` looks for. */
  const ProductTags: seq<string> :=
    ["productid:", "productdescr:", "businessunit:", "isdailyforecastrequired:", "isnew:", "productfamily:", "productlevel:"]

  predicate SavedQueryHasProductField(q: string) {
    MentionsAny(q, ProductTags)
  }

  /** The cases of `backendFieldFor`: lower-case UI field name, backend token. */
  const FieldCases: seq<(string, string)> := [
    ("productid", "productid"), ("productdescr", "productdescr"), ("businessunit", "businessunit"),
    ("isdailyforecastrequired", "isdailyforecastrequired"), ("isnew", "isnew"),
    ("productfamily", "productfamily"), ("level", "productlevel")]

  /** `backendFieldFor`: the backend token of a UI field name, compared in lower case. */
  function BackendFieldFor(uiField: string): Option<string> {
    Lookup(FieldCases, Lower(uiField))
  }

  /** The field name is compared without regard to letter case. */
  lemma BackendFieldForIgnoresCase(uiField: string)
    ensures BackendFieldFor(Lower(uiField)) == BackendFieldFor(uiField)
  {
    LowerIdempotent(uiField);
  }

  /** Each case's token, followed by `:`, is the tag in the same place. */
  lemma CaseTokensAreTags()
    ensures |FieldCases| == |ProductTags|
    ensures forall k :: 0 <= k < |FieldCases| ==> FieldCases[k].1 + ":" == ProductTags[k]
    ensures forall k :: 0 <= k < |FieldCases| ==> IsLowerCase(FieldCases[k].1) && ':' !in FieldCases[k].1
  {
  }

  /**
   * Every token the registry yields is a lower-case name without `:` whose tag
   * the saved-query check looks for.
   */
  lemma BackendFieldForTagged(uiField: string)
    ensures BackendFieldFor(uiField).Some? ==>
      && BackendFieldFor(uiField).value + ":" in ProductTags
      && IsLowerCase(BackendFieldFor(uiField).value) && ':' !in BackendFieldFor(uiField).value
  {
    CaseTokensAreTags();
  }

  /**
   * `buildProductQuery`: nothing for an unknown field or a blank term, otherwise
   * the fragment of the field's token and the term; a built query always passes
   * the screen's own saved-query check.
   */
  function BuildProductQuery(fieldUI: string, term: string): (q: Option<string>)
    ensures q.None? <==> BackendFieldFor(fieldUI).None? || AllWhitespace(term)
    ensures q.Some? ==> SavedQueryHasProductField(q.value)
  {
    match BackendFieldFor(fieldUI)
    case None => None
    case Some(field) =>
      if AllWhitespace(term) then None
      else
        BackendFieldForTagged(fieldUI);
        FragmentMentionsField(field, term, ProductTags);
        Fragment(field, term)
  }

  /** A built query reads back as the field's token and the search pattern of the trimmed term. */
  lemma BuildProductQueryReadsBack(fieldUI: string, term: string)
    requires BuildProductQuery(fieldUI, term).Some? && '"' !in term
    ensures ParseFragment(BuildProductQuery(fieldUI, term).value) ==
      Some((BackendFieldFor(fieldUI).value, Pattern(Trim(term))))
  {
    BackendFieldForTagged(fieldUI);
    FragmentRoundTrip(BackendFieldFor(fieldUI).value, term);
  }

  // ----- Reconciliation and dropdown filters -----

  /** `new Set(keys.map(k => k.ProductID))`. */
  function KeyProductIds(keys: seq<KeyTriplet>): set<string> {
    set k | k in keys :: k.ProductID
  }

  function HasIdIn(ids: set<string>): Product -> bool {
    (p: Product) => p.ProductID in ids
  }

  /** The search results: the master rows whose ProductID is among the returned keys'. */
  function Reconcile(data: seq<Product>, keys: seq<KeyTriplet>): seq<Product> {
    Filter(data, HasIdIn(KeyProductIds(keys)))
  }

  /**
   * Reconciliation keeps exactly the master rows whose ProductID some returned
   * key carries, each as often as in the master data, in master order; no keys
   * keep nothing.
   */
  lemma ReconcileKeepsKeyedRows(data: seq<Product>, keys: seq<KeyTriplet>)
    ensures forall p :: p in Reconcile(data, keys) <==> p in data && exists k :: k in keys && k.ProductID == p.ProductID
    ensures forall p :: multiset(Reconcile(data, keys))[p] ==
                        if p.ProductID in KeyProductIds(keys) then multiset(data)[p] else 0
    ensures IsSubsequence(Reconcile(data, keys), data)
    ensures keys == [] ==> Reconcile(data, keys) == []
  {
    FilterSpec(data, HasIdIn(KeyProductIds(keys)));
    if keys == [] {
      FilterNone(data, HasIdIn(KeyProductIds(keys)));
    }
  }

  function DropdownMatch(bu: string, isNew: string): Product -> bool {
    (p: Product) => (bu == "" || p.BusinessUnit == bu) && (isNew == "" || p.IsNew == isNew)
  }

  /** The rows `applyDropdownFilters` keeps. */
  function DropdownFilter(base: seq<Product>, buInput: string, isNewInput: string): seq<Product> {
    Filter(base, DropdownMatch(Trim(buInput), Trim(isNewInput)))
  }

  /**
   * The dropdowns keep, in order, the rows whose BusinessUnit and IsNew equal
   * the trimmed selections, each as often as it occurs in `base`, a blank
   * selection matching every row.
   */
  lemma DropdownFilterMatchesSelections(base: seq<Product>, buInput: string, isNewInput: string)
    ensures IsSubsequence(DropdownFilter(base, buInput, isNewInput), base)
    ensures forall p :: multiset(DropdownFilter(base, buInput, isNewInput))[p] ==
              if (AllWhitespace(buInput) || p.BusinessUnit == Trim(buInput)) && (AllWhitespace(isNewInput) || p.IsNew == Trim(isNewInput))
              then multiset(base)[p] else 0
    ensures forall p :: p in DropdownFilter(base, buInput, isNewInput) <==>
      (p in base && (AllWhitespace(buInput) || p.BusinessUnit == Trim(buInput))
                 && (AllWhitespace(isNewInput) || p.IsNew == Trim(isNewInput)))
    ensures AllWhitespace(buInput) && AllWhitespace(isNewInput) ==> DropdownFilter(base, buInput, isNewInput) == base
  {
    FilterSpec(base, DropdownMatch(Trim(buInput), Trim(isNewInput)));
    if AllWhitespace(buInput) && AllWhitespace(isNewInput) {
      FilterAll(base, DropdownMatch(Trim(buInput), Trim(isNewInput)));
    }
  }

  // ----- Sorting and export -----

  function SortKey(c: Column): Product -> string {
    (p: Product) => Lower(Cell(p, c))
  }

  /** The exported CSV text, or nothing when there is no row to export. */
  function CsvExport(rows: seq<Product>): (csv: Option<string>)
    ensures csv.None? <==> rows == []
  {
    if rows == [] then None else Some(UnescapedDocument(Header, Map(rows, Cells)))
  }

  lemma HeaderIsPlain()
    ensures forall k :: 0 <= k < |Header| ==> ',' !in Header[k] && '\r' !in Header[k]
  {
  }

  /** Read back, the export gives the header and every row's cells, provided no cell holds a quote. */
  lemma CsvExportReadsBack(rows: seq<Product>)
    requires rows != []
    requires forall i, k :: 0 <= i < |rows| && 0 <= k < |Cells(rows[i])| ==> '"' !in Cells(rows[i])[k]
    ensures ParseDocument(CsvExport(rows).value) == Some((Header, Map(rows, Cells)))
  {
    HeaderIsPlain();
    UnescapedDocumentRoundTrip(Header, Map(rows, Cells));
  }

  // ----- Messages -----

  const LoadFailedMessage := "Failed to load products."
  const InvalidFieldMessage := "Please choose a valid product attribute."
  const ChooseSavedMessage := "Please choose a saved search."
  const NotProductQueryMessage :=
    "This saved search does not include product attributes. Product page only runs searches with product fields."

  class ProductComponent {
    var productData: seq<Product>
    var searchResults: seq<Product>
    var filteredData: seq<Product>
    var businessUnitList: seq<string>
    var isNewList: seq<string>
    var errorMessage: Option<string>
    var currentPage: int
    var totalPages: int
    var sortColumn: Option<Column>
    var sortAsc: bool
    const itemsPerPage: nat := 5

    /** The page shown always lies within the page count. */
    ghost predicate Valid()
      reads this
    {
      1 <= currentPage <= totalPages
    }

    constructor ()
      ensures Valid()
      ensures productData == [] && searchResults == [] && filteredData == []
      ensures businessUnitList == [] && isNewList == []
      ensures errorMessage == None && currentPage == 1 && totalPages == 1
      ensures sortColumn == None && sortAsc
    {
      productData := [];
      searchResults := [];
      filteredData := [];
      businessUnitList := [];
      isNewList := [];
      errorMessage := None;
      currentPage := 1;
      totalPages := 1;
      sortColumn := None;
      sortAsc := true;
    }

    /** `updatePagination`: recount the pages and pull the current page back inside them. */
    method UpdatePagination()
      requires Valid()
      modifies this`totalPages, this`currentPage
      ensures Valid()
      ensures totalPages == TotalPages(|filteredData|, itemsPerPage)
      ensures currentPage == if old(currentPage) > totalPages then totalPages else old(currentPage)
    {
      totalPages := Max(1, CeilDiv(|filteredData|, itemsPerPage));
      if currentPage > totalPages {
        currentPage := totalPages;
      }
    }

    method SetPage(page: int)
      requires Valid()
      modifies this`currentPage
      ensures Valid()
      ensures currentPage == ClampPage(page, totalPages)
    {
      var total := Max(1, totalPages);
      currentPage := Min(Max(1, page), total);
    }

    /** `paginatedData`: the rows of the current page. */
    function PaginatedData(): (r: seq<Product>)
      reads this
      ensures |r| <= itemsPerPage
      ensures currentPage >= 1 ==>
        r == filteredData[Min((currentPage - 1) * itemsPerPage, |filteredData|)..Min(currentPage * itemsPerPage, |filteredData|)]
    {
      PageShape(filteredData, currentPage, itemsPerPage);
      if currentPage >= 1 then PageOfPositive(filteredData, currentPage, itemsPerPage); Page(filteredData, currentPage, itemsPerPage)
      else Page(filteredData, currentPage, itemsPerPage)
    }

    /** `pageRange`: the page numbers 1..totalPages. */
    function PageNumbers(): (r: seq<int>)
      reads this
      ensures Valid() ==> |r| == totalPages
      ensures forall i :: 0 <= i < |r| ==> r[i] == i + 1
    {
      PageRange(totalPages)
    }

    /** `applyDropdownFilters`: filter the search results by the two selections and go to page 1. */
    method ApplyDropdownFilters(bu: string, isNew: string)
      requires Valid()
      modifies this`filteredData, this`currentPage, this`totalPages
      ensures Valid()
      ensures filteredData == DropdownFilter(searchResults, bu, isNew)
      ensures currentPage == 1 && totalPages == TotalPages(|filteredData|, itemsPerPage)
    {
      filteredData := DropdownFilter(searchResults, bu, isNew);
      currentPage := 1;
      UpdatePagination();
    }

    /** The screens' `searchResults = []; applyDropdownFilters()`: show nothing, on page 1. */
    method ClearResults(bu: string, isNew: string)
      requires Valid()
      modifies this`searchResults, this`filteredData, this`currentPage, this`totalPages
      ensures Valid()
      ensures searchResults == [] && filteredData == [] && currentPage == 1 && totalPages == 1
    {
      searchResults := [];
      ApplyDropdownFilters(bu, isNew);
    }

    /** `sortBy`: toggle the direction on a repeated column, then sort the shown rows by the lower-cased cell. */
    method SortBy(column: Column)
      modifies this`sortColumn, this`sortAsc, this`filteredData
      ensures sortColumn == Some(column)
      ensures sortAsc == if old(sortColumn) == Some(column) then !old(sortAsc) else true
      ensures filteredData == Sorting.SortBy(old(filteredData), SortKey(column), sortAsc)
      ensures multiset(filteredData) == multiset(old(filteredData))
      ensures Sorting.SortedBy(filteredData, SortKey(column), sortAsc)
    {
      if sortColumn == Some(column) {
        sortAsc := !sortAsc;
      } else {
        sortColumn := Some(column);
        sortAsc := true;
      }
      Sorting.SortBySpec(filteredData, SortKey(column), sortAsc);
      filteredData := Sorting.SortBy(filteredData, SortKey(column), sortAsc);
    }

    /** `loadProducts`: normalise the rows, collect the dropdown lists, and clear the results. */
    method LoadProducts(outcome: FetchOutcome)
      requires Valid()
      modifies this`productData, this`businessUnitList, this`isNewList, this`searchResults, this`filteredData
      modifies this`totalPages, this`currentPage, this`errorMessage
      ensures Valid()
      ensures outcome.Fetched? ==>
        && productData == Map(outcome.rows, ToProduct)
        && businessUnitList == DistinctSorted(Map(productData, BusinessUnitOf))
        && isNewList == DistinctSorted(Map(productData, IsNewOf))
        && searchResults == [] && filteredData == [] && currentPage == 1 && totalPages == 1
        && errorMessage == old(errorMessage)
      ensures outcome.FetchFailed? ==>
        && errorMessage == Some(LoadFailedMessage)
        && productData == old(productData) && businessUnitList == old(businessUnitList) && isNewList == old(isNewList)
        && searchResults == old(searchResults) && filteredData == old(filteredData)
        && currentPage == old(currentPage) && totalPages == old(totalPages)
    {
      match outcome
      case FetchFailed(_) =>
        errorMessage := Some(LoadFailedMessage);
      case Fetched(rows) =>
        productData := Map(rows, ToProduct);
        businessUnitList := DistinctSorted(Map(productData, BusinessUnitOf));
        isNewList := DistinctSorted(Map(productData, IsNewOf));
        searchResults := [];
        filteredData := [];
        UpdatePagination();
    }

    /**
     * `runQueryAndFilterProducts`: issue the search; on keys keep the matching
     * master rows, on no keys or a failure keep none; then apply the dropdowns.
     */
    method RunQueryAndFilterProducts(q: string, outcome: SearchOutcome, bu: string, isNew: string)
      returns (request: SearchRequest)
      requires Valid()
      modifies this`searchResults, this`filteredData, this`currentPage, this`totalPages, this`errorMessage
      ensures Valid()
      ensures request == SearchRequest(q, MasterSearchLimit, 0)
      ensures searchResults == if outcome.Found? then Reconcile(productData, outcome.keys) else []
      ensures filteredData == DropdownFilter(searchResults, bu, isNew)
      ensures currentPage == 1 && totalPages == TotalPages(|filteredData|, itemsPerPage)
      ensures errorMessage == if outcome.SearchFailed? then Some(ErrorText(outcome.detail, SearchFailedMessage)) else old(errorMessage)
    {
      request := SearchRequest(q, MasterSearchLimit, 0);
      match outcome
      case SearchFailed(detail) =>
        errorMessage := Some(ErrorText(detail, SearchFailedMessage));
        searchResults := [];
        ApplyDropdownFilters(bu, isNew);
      case Found(keys) =>
        if |keys| == 0 {
          ReconcileKeepsKeyedRows(productData, keys);
          searchResults := [];
          ApplyDropdownFilters(bu, isNew);
          return;
        }
        searchResults := Reconcile(productData, keys);
        ApplyDropdownFilters(bu, isNew);
    }

    /**
     * `performSearch`: a blank term clears the results; an unknown field sets an
     * error and clears them; otherwise the built query is run.
     */
    method PerformSearch(term: string, field: string, bu: string, isNew: string, outcome: SearchOutcome)
      returns (request: Option<SearchRequest>)
      requires Valid()
      modifies this`searchResults, this`filteredData, this`currentPage, this`totalPages, this`errorMessage
      ensures Valid()
      ensures var q := BuildProductQuery(if field == "" then "ProductID" else field, term);
        && (request.Some? <==> !AllWhitespace(term) && q.Some?)
        && (request.Some? ==> request.value == SearchRequest(q.value, MasterSearchLimit, 0))
        && (errorMessage ==
              if AllWhitespace(term) then None
              else if q.None? then Some(InvalidFieldMessage)
              else if outcome.SearchFailed? then Some(ErrorText(outcome.detail, SearchFailedMessage))
              else None)
      ensures searchResults == if request.Some? && outcome.Found? then Reconcile(productData, outcome.keys) else []
      ensures filteredData == DropdownFilter(searchResults, bu, isNew)
      ensures currentPage == 1 && totalPages == TotalPages(|filteredData|, itemsPerPage)
    {
      errorMessage := None;
      if AllWhitespace(term) {
        searchResults := [];
        ApplyDropdownFilters(bu, isNew);
        return None;
      }
      var q := BuildProductQuery(if field == "" then "ProductID" else field, term);
      if q.None? {
        errorMessage := Some(InvalidFieldMessage);
        searchResults := [];
        ApplyDropdownFilters(bu, isNew);
        return None;
      }
      var r := RunQueryAndFilterProducts(q.value, outcome, bu, isNew);
      request := Some(r);
    }

    /**
     * `loadFromSaved`: an index out of range only sets an error; a saved query
     * without a product tag sets an error and clears the results; otherwise the
     * saved query is run.
     */
    method LoadFromSaved(saved: seq<SavedSearch>, idx: int, bu: string, isNew: string, outcome: SearchOutcome)
      returns (request: Option<SearchRequest>)
      requires Valid()
      modifies this`searchResults, this`filteredData, this`currentPage, this`totalPages, this`errorMessage
      ensures Valid()
      ensures (idx < 0 || idx >= |saved|) ==>
        && request.None? && errorMessage == Some(ChooseSavedMessage)
        && searchResults == old(searchResults) && filteredData == old(filteredData)
        && currentPage == old(currentPage) && totalPages == old(totalPages)
      ensures 0 <= idx < |saved| && !SavedQueryHasProductField(saved[idx].query) ==>
        && request.None? && errorMessage == Some(NotProductQueryMessage)
        && searchResults == [] && filteredData == [] && currentPage == 1 && totalPages == 1
      ensures 0 <= idx < |saved| && SavedQueryHasProductField(saved[idx].query) ==>
        && request == Some(SearchRequest(saved[idx].query, MasterSearchLimit, 0))
        && searchResults == (if outcome.Found? then Reconcile(productData, outcome.keys) else [])
        && filteredData == DropdownFilter(searchResults, bu, isNew)
        && currentPage == 1 && totalPages == TotalPages(|filteredData|, itemsPerPage)
        && errorMessage == (if outcome.SearchFailed? then Some(ErrorText(outcome.detail, SearchFailedMessage)) else None)
    {
      errorMessage := None;
      var q := SelectedQuery(saved, idx);
      if q.None? {
        errorMessage := Some(ChooseSavedMessage);
        return None;
      }
      if !SavedQueryHasProductField(q.value) {
        errorMessage := Some(NotProductQueryMessage);
        ClearResults(bu, isNew);
        return None;
      }
      var r := RunQueryAndFilterProducts(q.value, outcome, bu, isNew);
      request := Some(r);
    }
  }
}
