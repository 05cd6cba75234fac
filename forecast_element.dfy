/**
 * The forecast-element screen: the three ID inputs are compiled into a backend
 * query, the returned key triples become the table rows, and the same inputs
 * then narrow the rows locally; the rows are sorted, paged and exported.
 */
module ForecastElementScreen {
  import opened Wrappers
  import opened Text
  import opened Seqs
  import Sorting
  import opened Paging
  import opened Csv
  import opened Backend
  import opened QueryFragments
  import opened KeyFilters

  /** A table row: the three IDs of one returned key. */
  datatype Element = Element(ProductID: string, ChannelID: string, LocationID: string)

  /** The sortable columns (`keyof IForecastElement`). */
  datatype Column = ProductID | ChannelID | LocationID

  function Cell(e: Element, col: Column): string {
    match col
    case ProductID => e.ProductID
    case ChannelID => e.ChannelID
    case LocationID => e.LocationID
  }

  /** The keys of a row (`Object.keys`), in the order the projection writes them. */
  const Header: seq<string> := ["ProductID", "ChannelID", "LocationID"]

  function Cells(e: Element): seq<string> {
    [e.ProductID, e.ChannelID, e.LocationID]
  }

  /** The projection `k => ({ ProductID, ChannelID, LocationID })`. */
  function ToElement(k: KeyTriplet): Element {
    Element(k.ProductID, k.ChannelID, k.LocationID)
  }

  function Key(e: Element): KeyTriplet {
    KeyTriplet(e.ProductID, e.ChannelID, e.LocationID)
  }

  /** The table holds exactly the returned keys, in the order the backend sent them. */
  lemma ElementsAreKeys(keys: seq<KeyTriplet>)
    ensures Map(Map(keys, ToElement), Key) == keys
  {
  }

  // ----- The typed query -----

  /** The values of the present options, in order (`parts` after the pushes). */
  function Present(fs: seq<Option<string>>): (parts: seq<string>)
    ensures |parts| <= |fs|
  {
    if fs == [] then [] else Shown(fs[0]) + Present(fs[1..])
  }

  /** What one call of `add` pushes: its fragment, if the input is not blank. */
  function Shown(f: Option<string>): seq<string> {
    if f.Some? then [f.value] else []
  }

  /** The three calls of `add`: one fragment per non-blank input, in product, channel, location order. */
  function InputFragments(prodInput: string, chanInput: string, locInput: string): seq<Option<string>> {
    [Fragment("productid", prodInput), Fragment("channelid", chanInput), Fragment("locationid", locInput)]
  }

  /** The separator `buildQueryFromInputs` joins the fragments with. */
  const AndSeparator := " AND "

  /** Pushing one more option appends its value, if any. */
  lemma {:induction false} PresentSnoc(fs: seq<Option<string>>, f: Option<string>)
    ensures Present(fs + [f]) == Present(fs) + Shown(f)
  {
    if fs == [] {
      assert [f][1..] == [];
      assert Present([f]) == Shown(f) + [];
    } else {
      var g := fs + [f];
      assert g[0] == fs[0] && g[1..] == fs[1..] + [f];
      PresentSnoc(fs[1..], f);
      assert Present(g) == Shown(fs[0]) + (Present(fs[1..]) + Shown(f));
    }
  }

  /** Nothing is pushed exactly when every option is empty. */
  lemma {:induction false} PresentEmptyIff(fs: seq<Option<string>>)
    ensures Present(fs) == [] <==> forall i :: 0 <= i < |fs| ==> fs[i].None?
  {
    if fs != [] {
      PresentEmptyIff(fs[1..]);
      if fs[0].None? {
        assert forall i :: 1 <= i < |fs| ==> fs[i] == fs[1..][i - 1];
      }
    }
  }

  /** The query holds no fragment exactly when every input is blank. */
  lemma InputFragmentsEmptyIff(prodInput: string, chanInput: string, locInput: string)
    ensures Present(InputFragments(prodInput, chanInput, locInput)) == [] <==>
      AllWhitespace(prodInput) && AllWhitespace(chanInput) && AllWhitespace(locInput)
  {
    var fs := InputFragments(prodInput, chanInput, locInput);
    PresentEmptyIff(fs);
    assert fs[0].None? <==> AllWhitespace(prodInput);
    assert fs[1].None? <==> AllWhitespace(chanInput);
    assert fs[2].None? <==> AllWhitespace(locInput);
  }

  /** `add`: push the fragment of one input, if it has one. */
  method Add(parts: seq<string>, f: Option<string>) returns (r: seq<string>)
    ensures r == parts + Shown(f)
  {
    r := parts;
    if f.Some? {
      r := r + [f.value];
    }
  }

  /** Each non-blank input's fragment is part of the joined query. */
  lemma InputQueryHasFragments(prodInput: string, chanInput: string, locInput: string, k: nat)
    requires k < 3 && InputFragments(prodInput, chanInput, locInput)[k].Some?
    ensures Contains(Join(Present(InputFragments(prodInput, chanInput, locInput)), AndSeparator),
                     InputFragments(prodInput, chanInput, locInput)[k].value)
  {
    var fs := InputFragments(prodInput, chanInput, locInput);
    var parts := Present(fs);
    var j := |Present(fs[..k])|;
    PresentSplit(fs, k);
    assert parts[j] == fs[k].value;
    ContainsItself(fs[k].value);
    JoinContains(parts, AndSeparator, j, fs[k].value);
  }

  /** Where a present option lands in `Present`: after the values of the options before it. */
  lemma {:induction false} PresentSplit(fs: seq<Option<string>>, k: nat)
    requires k < |fs| && fs[k].Some?
    ensures |Present(fs[..k])| < |Present(fs)| && Present(fs)[|Present(fs[..k])|] == fs[k].value
  {
    if k > 0 {
      PresentSplit(fs[1..], k - 1);
      assert fs[1..][..k - 1] == fs[..k][1..];
    }
  }

  /** Every fragment of the query reads back as its field and the search pattern of the trimmed input. */
  lemma InputFragmentsReadBack(prodInput: string, chanInput: string, locInput: string, k: nat)
    requires k < 3 && InputFragments(prodInput, chanInput, locInput)[k].Some?
    requires '"' !in [prodInput, chanInput, locInput][k]
    ensures ParseFragment(InputFragments(prodInput, chanInput, locInput)[k].value) ==
      Some((["productid", "channelid", "locationid"][k], Pattern(Trim([prodInput, chanInput, locInput][k]))))
  {
    var input := [prodInput, chanInput, locInput][k];
    var field := ["productid", "channelid", "locationid"][k];
    assert ':' !in field;
    FragmentRoundTrip(field, input);
  }

  // ----- Local filters -----

  /** The rows `applyFilters` keeps for the three filter inputs. */
  function FilterRows(data: seq<Element>, prodInput: string, chanInput: string, locInput: string): seq<Element> {
    KeyFilter(data, Key, prodInput, chanInput, locInput)
  }

  /**
   * The filters keep, in table order, exactly the rows whose three IDs pass
   * their inputs (see `KeyFilters.NeedleMatches`), each as often as it occurs
   * in the data; with all inputs blank every row is kept.
   */
  lemma FilterRowsKeepsMatches(data: seq<Element>, prodInput: string, chanInput: string, locInput: string)
    ensures forall e :: e in FilterRows(data, prodInput, chanInput, locInput) <==>
      && e in data
      && IdMatches(e.ProductID, Needle(prodInput))
      && IdMatches(e.ChannelID, Needle(chanInput))
      && IdMatches(e.LocationID, Needle(locInput))
    ensures forall e :: multiset(FilterRows(data, prodInput, chanInput, locInput))[e] ==
              if IdMatches(e.ProductID, Needle(prodInput)) && IdMatches(e.ChannelID, Needle(chanInput)) && IdMatches(e.LocationID, Needle(locInput))
              then multiset(data)[e] else 0
    ensures IsSubsequence(FilterRows(data, prodInput, chanInput, locInput), data)
    ensures AllWhitespace(prodInput) && AllWhitespace(chanInput) && AllWhitespace(locInput) ==>
      FilterRows(data, prodInput, chanInput, locInput) == data
  {
    KeyFilterKeepsMatches(data, Key, prodInput, chanInput, locInput);
  }

  // ----- Sorting and export -----

  function SortKey(col: Column): Element -> string {
    (e: Element) => Lower(Cell(e, col))
  }

  /** The exported CSV text, or nothing when no row is shown. */
  function CsvExport(rows: seq<Element>): (csv: Option<string>)
    ensures csv.None? <==> rows == []
  {
    if rows == [] then None else Some(UnescapedDocument(Header, Map(rows, Cells)))
  }

  lemma HeaderIsPlain()
    ensures forall k :: 0 <= k < |Header| ==> ',' !in Header[k] && '\r' !in Header[k]
  {
  }

  /** Read back, the export gives the header and every shown row's cells, provided no ID holds a quote. */
  lemma CsvExportReadsBack(rows: seq<Element>)
    requires rows != []
    requires forall i, k :: 0 <= i < |rows| && 0 <= k < |Cells(rows[i])| ==> '"' !in Cells(rows[i])[k]
    ensures ParseDocument(CsvExport(rows).value) == Some((Header, Map(rows, Cells)))
  {
    HeaderIsPlain();
    UnescapedDocumentRoundTrip(Header, Map(rows, Cells));
  }

  // ----- Messages -----

  const ChooseSavedMessage := "Please choose a saved search."
  const EnterInputMessage := "Enter at least one of Product/Channel/Location."

  class ForecastElementComponent {
    var forecastElements: seq<Element>
    var filteredUnits: seq<Element>
    /** The three ID inputs, as the template sets them. */
    var productSearch: string
    var channelSearch: string
    var locationSearch: string
    var errorMessage: Option<string>
    var currentPage: int
    var totalPages: int
    var sortColumn: Option<Column>
    var sortAsc: bool
    const itemsPerPage: nat := 20

    /** The page shown always lies within the page count. */
    ghost predicate Valid()
      reads this
    {
      1 <= currentPage <= totalPages
    }

    constructor ()
      ensures Valid()
      ensures forecastElements == [] && filteredUnits == []
      ensures productSearch == "" && channelSearch == "" && locationSearch == ""
      ensures errorMessage == None && currentPage == 1 && totalPages == 1
      ensures sortColumn == None && sortAsc
    {
      forecastElements := [];
      filteredUnits := [];
      productSearch := "";
      channelSearch := "";
      locationSearch := "";
      errorMessage := None;
      currentPage := 1;
      totalPages := 1;
      sortColumn := None;
      sortAsc := true;
    }

    /** `updatePagination`: recount the pages and pull the current page back inside them. */
    method UpdatePagination()
      requires Valid()
      modifies this`totalPages, this`currentPage
      ensures Valid()
      ensures totalPages == TotalPages(|filteredUnits|, itemsPerPage)
      ensures currentPage == if old(currentPage) > totalPages then totalPages else old(currentPage)
    {
      totalPages := Max(1, CeilDiv(|filteredUnits|, itemsPerPage));
      if currentPage > totalPages {
        currentPage := totalPages;
      }
    }

    method SetPage(page: int)
      requires Valid()
      modifies this`currentPage
      ensures Valid()
      ensures currentPage == ClampPage(page, totalPages)
    {
      var total := Max(1, totalPages);
      currentPage := Min(Max(1, page), total);
    }

    /** `paginatedData`: the rows of the current page. */
    function PaginatedData(): (r: seq<Element>)
      reads this
      ensures |r| <= itemsPerPage
      ensures currentPage >= 1 ==>
        r == filteredUnits[Min((currentPage - 1) * itemsPerPage, |filteredUnits|)..Min(currentPage * itemsPerPage, |filteredUnits|)]
    {
      PageShape(filteredUnits, currentPage, itemsPerPage);
      if currentPage >= 1 then PageOfPositive(filteredUnits, currentPage, itemsPerPage); Page(filteredUnits, currentPage, itemsPerPage)
      else Page(filteredUnits, currentPage, itemsPerPage)
    }

    /** `pageRange`: the page numbers 1..totalPages. */
    function PageNumbers(): (r: seq<int>)
      reads this
      ensures Valid() ==> |r| == totalPages
      ensures forall i :: 0 <= i < |r| ==> r[i] == i + 1
    {
      PageRange(totalPages)
    }

    /** `visiblePages`: the pager's page numbers. */
    method VisiblePages() returns (pages: seq<int>)
      requires Valid()
      ensures pages == PagerWindow(totalPages, currentPage)
      ensures |pages| == Min(totalPages, 5) && currentPage in pages
      ensures forall i :: 0 <= i < |pages| ==> 1 <= pages[i] <= totalPages
      ensures forall i :: 0 < i < |pages| ==> pages[i] == pages[i - 1] + 1
    {
      pages := CentredPages(totalPages, currentPage);
      PagerWindowShape(totalPages, currentPage);
    }

    /** `applyFilters`: keep the rows matching the three inputs and go to page 1. */
    method ApplyFilters()
      requires Valid()
      modifies this`filteredUnits, this`currentPage, this`totalPages
      ensures Valid()
      ensures filteredUnits == FilterRows(forecastElements, productSearch, channelSearch, locationSearch)
      ensures currentPage == 1 && totalPages == TotalPages(|filteredUnits|, itemsPerPage)
    {
      filteredUnits := FilterRows(forecastElements, productSearch, channelSearch, locationSearch);
      currentPage := 1;
      UpdatePagination();
    }

    /** `clearAllFilters`: blank the three inputs; each change re-applies the filters, which then keep every row. */
    method ClearAllFilters()
      requires Valid()
      modifies this`productSearch, this`channelSearch, this`locationSearch
      modifies this`filteredUnits, this`currentPage, this`totalPages
      ensures Valid()
      ensures productSearch == "" && channelSearch == "" && locationSearch == ""
      ensures filteredUnits == forecastElements
      ensures currentPage == 1 && totalPages == TotalPages(|forecastElements|, itemsPerPage)
    {
      productSearch := "";
      ApplyFilters();
      channelSearch := "";
      ApplyFilters();
      locationSearch := "";
      ApplyFilters();
      FilterRowsKeepsMatches(forecastElements, productSearch, channelSearch, locationSearch);
    }

    /** `sortBy`: toggle the direction on a repeated column, then sort the shown rows by the lower-cased cell. */
    method SortBy(column: Column)
      modifies this`sortColumn, this`sortAsc, this`filteredUnits
      ensures sortColumn == Some(column)
      ensures sortAsc == if old(sortColumn) == Some(column) then !old(sortAsc) else true
      ensures filteredUnits == Sorting.SortBy(old(filteredUnits), SortKey(column), sortAsc)
      ensures multiset(filteredUnits) == multiset(old(filteredUnits))
      ensures Sorting.SortedBy(filteredUnits, SortKey(column), sortAsc)
    {
      if sortColumn == Some(column) {
        sortAsc := !sortAsc;
      } else {
        sortColumn := Some(column);
        sortAsc := true;
      }
      Sorting.SortBySpec(filteredUnits, SortKey(column), sortAsc);
      filteredUnits := Sorting.SortBy(filteredUnits, SortKey(column), sortAsc);
    }

    /**
     * `buildQueryFromInputs`: push the fragment of each non-blank input, then join
     * them with ` AND `; nothing when every input is blank.
     */
    method BuildQueryFromInputs() returns (q: Option<string>)
      ensures q.None? <==> AllWhitespace(productSearch) && AllWhitespace(channelSearch) && AllWhitespace(locationSearch)
      ensures q.Some? ==> q.value == Join(Present(InputFragments(productSearch, channelSearch, locationSearch)), AndSeparator)
    {
      var parts: seq<string> := [];
      var fp := Fragment("productid", productSearch);
      parts := Add(parts, fp);
      PresentSnoc([], fp);
      var fc := Fragment("channelid", channelSearch);
      parts := Add(parts, fc);
      PresentSnoc([fp], fc);
      assert [fp] + [fc] == [fp, fc];
      var fl := Fragment("locationid", locationSearch);
      parts := Add(parts, fl);
      PresentSnoc([fp, fc], fl);
      assert [fp, fc] + [fl] == InputFragments(productSearch, channelSearch, locationSearch);
      InputFragmentsEmptyIff(productSearch, channelSearch, locationSearch);
      q := if |parts| > 0 then Some(Join(parts, AndSeparator)) else None;
    }

    /** The success path of `runQuery`: the keys become the rows, all shown, then the filters apply. */
    method ShowRows(rows: seq<Element>)
      requires Valid()
      modifies this`forecastElements, this`filteredUnits, this`currentPage, this`totalPages
      ensures Valid()
      ensures forecastElements == rows
      ensures filteredUnits == FilterRows(rows, productSearch, channelSearch, locationSearch)
      ensures currentPage == 1 && totalPages == TotalPages(|filteredUnits|, itemsPerPage)
    {
      forecastElements := rows;
      filteredUnits := forecastElements;
      UpdatePagination();
      ApplyFilters();
    }

    /**
     * `runQuery`: clear the rows and go to page 1, then show the returned keys
     * through the local filters; a failure sets the error text and leaves the
     * page count as it was.
     */
    method RunQuery(q: string, outcome: SearchOutcome) returns (request: SearchRequest)
      requires Valid()
      modifies this`forecastElements, this`filteredUnits, this`currentPage, this`totalPages, this`errorMessage
      ensures Valid()
      ensures request == SearchRequest(q, MasterSearchLimit, 0)
      ensures forecastElements == if outcome.Found? then Map(outcome.keys, ToElement) else []
      ensures filteredUnits == FilterRows(forecastElements, productSearch, channelSearch, locationSearch)
      ensures currentPage == 1
      ensures outcome.Found? ==> totalPages == TotalPages(|filteredUnits|, itemsPerPage) && errorMessage == None
      ensures outcome.SearchFailed? ==>
        totalPages == old(totalPages) && errorMessage == Some(ErrorText(outcome.detail, SearchFailedMessage))
    {
      KeyFilterOfNothing(Key, productSearch, channelSearch, locationSearch);
      errorMessage := None;
      forecastElements := [];
      filteredUnits := [];
      currentPage := 1;
      request := SearchRequest(q, MasterSearchLimit, 0);
      match outcome
      case SearchFailed(detail) =>
        errorMessage := Some(ErrorText(detail, SearchFailedMessage));
      case Found(keys) =>
        ShowRows(Map(keys, ToElement));
    }

    /** `runTypedSearch`: with every input blank only an error is set; otherwise the built query is run. */
    method RunTypedSearch(outcome: SearchOutcome) returns (request: Option<SearchRequest>)
      requires Valid()
      modifies this`forecastElements, this`filteredUnits, this`currentPage, this`totalPages, this`errorMessage
      ensures Valid()
      ensures var blank := AllWhitespace(productSearch) && AllWhitespace(channelSearch) && AllWhitespace(locationSearch);
        && (request.None? <==> blank)
        && (blank ==>
              && errorMessage == Some(EnterInputMessage)
              && forecastElements == old(forecastElements) && filteredUnits == old(filteredUnits)
              && currentPage == old(currentPage) && totalPages == old(totalPages))
        && (!blank ==>
              && request == Some(SearchRequest(Join(Present(InputFragments(productSearch, channelSearch, locationSearch)), AndSeparator),
                                               MasterSearchLimit, 0))
              && forecastElements == (if outcome.Found? then Map(outcome.keys, ToElement) else [])
              && filteredUnits == FilterRows(forecastElements, productSearch, channelSearch, locationSearch)
              && currentPage == 1
              && (outcome.Found? ==> totalPages == TotalPages(|filteredUnits|, itemsPerPage) && errorMessage == None)
              && (outcome.SearchFailed? ==>
                    totalPages == old(totalPages) && errorMessage == Some(ErrorText(outcome.detail, SearchFailedMessage))))
    {
      var q := BuildQueryFromInputs();
      if q.None? {
        errorMessage := Some(EnterInputMessage);
        return None;
      }
      var r := RunQuery(q.value, outcome);
      request := Some(r);
    }

    /** `loadFromSaved`: an index out of range only sets an error; otherwise the saved query is run. */
    method LoadFromSaved(saved: seq<SavedSearch>, idx: int, outcome: SearchOutcome) returns (request: Option<SearchRequest>)
      requires Valid()
      modifies this`forecastElements, this`filteredUnits, this`currentPage, this`totalPages, this`errorMessage
      ensures Valid()
      ensures (idx < 0 || idx >= |saved|) ==>
        && request.None? && errorMessage == Some(ChooseSavedMessage)
        && forecastElements == old(forecastElements) && filteredUnits == old(filteredUnits)
        && currentPage == old(currentPage) && totalPages == old(totalPages)
      ensures 0 <= idx < |saved| ==>
        && request == Some(SearchRequest(saved[idx].query, MasterSearchLimit, 0))
        && forecastElements == (if outcome.Found? then Map(outcome.keys, ToElement) else [])
        && filteredUnits == FilterRows(forecastElements, productSearch, channelSearch, locationSearch)
        && currentPage == 1
        && (outcome.Found? ==> totalPages == TotalPages(|filteredUnits|, itemsPerPage) && errorMessage == None)
        && (outcome.SearchFailed? ==>
              totalPages == old(totalPages) && errorMessage == Some(ErrorText(outcome.detail, SearchFailedMessage)))
    {
      errorMessage := None;
      var q := SelectedQuery(saved, idx);
      if q.None? {
        errorMessage := Some(ChooseSavedMessage);
        return None;
      }
      var r := RunQuery(q.value, outcome);
      request := Some(r);
    }
  }
}
