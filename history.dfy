/**
 * The history screen: a saved search is resolved to key triples, the history
 * of those keys is fetched in the selected period bucket, and the rows are
 * narrowed by the three local ID filters, sorted, paged and exported.
 */
module HistoryScreen {
  import opened Wrappers
  import opened Text
  import opened Seqs
  import Sorting
  import opened Paging
  import opened Csv
  import opened Backend
  import opened KeyFilters

  /** A row in the order `toIHistoryRows` builds it; every value is kept as a string. */
  datatype History = History(ProductID: string, ChannelID: string, LocationID: string, Period: string,
                             StartDate: string, EndDate: string, Qty: string, Type: string, Level: string)

  /** The sortable columns (`keyof IHistory`). */
  datatype Column = ProductID | ChannelID | LocationID | Period | StartDate | EndDate | Qty | Type | Level

  function Cell(h: History, col: Column): string {
    match col
    case ProductID => h.ProductID
    case ChannelID => h.ChannelID
    case LocationID => h.LocationID
    case Period => h.Period
    case StartDate => h.StartDate
    case EndDate => h.EndDate
    case Qty => h.Qty
    case Type => h.Type
    case Level => h.Level
  }

  /** The keys of a built row (`Object.keys`), in the order `toIHistoryRows` writes them. */
  const Header: seq<string> :=
    ["ProductID", "ChannelID", "LocationID", "Period", "StartDate", "EndDate", "Qty", "Type", "Level"]

  /** A row's cells in header order. */
  function Cells(h: History): seq<string> {
    [h.ProductID, h.ChannelID, h.LocationID, h.Period, h.StartDate, h.EndDate, h.Qty, h.Type, h.Level]
  }

  /** A raw backend row's fields in header order, a missing one as `''`. */
  function RawCells(r: RawRow): seq<string> {
    seq(|Header|, k requires 0 <= k < |Header| => FieldOr(r, Header[k]))
  }

  /** `toIHistoryRows` on one backend row. */
  function ToHistory(r: RawRow): History {
    History(FieldOr(r, "ProductID"), FieldOr(r, "ChannelID"), FieldOr(r, "LocationID"), FieldOr(r, "Period"),
            FieldOr(r, "StartDate"), FieldOr(r, "EndDate"), FieldOr(r, "Qty"), FieldOr(r, "Type"), FieldOr(r, "Level"))
  }

  /** A built row holds, column for column, the backend row's field of that name. */
  lemma ToHistoryKeepsFields(r: RawRow)
    ensures Cells(ToHistory(r)) == RawCells(r)
  {
    assert Header[0] == "ProductID" && Header[1] == "ChannelID" && Header[2] == "LocationID";
    assert Header[3] == "Period" && Header[4] == "StartDate" && Header[5] == "EndDate";
    assert Header[6] == "Qty" && Header[7] == "Type" && Header[8] == "Level";
  }

  // ----- Local filters -----

  function Key(h: History): KeyTriplet {
    KeyTriplet(h.ProductID, h.ChannelID, h.LocationID)
  }

  /** The rows `applyFilters` keeps for the three filter inputs. */
  function FilterRows(data: seq<History>, prodInput: string, chanInput: string, locInput: string): seq<History> {
    KeyFilter(data, Key, prodInput, chanInput, locInput)
  }

  /**
   * The filters keep, in history order, exactly the rows whose three IDs pass
   * their inputs (see `KeyFilters.NeedleMatches`), each as often as it occurs
   * in the data; with all inputs blank every row is kept.
   */
  lemma FilterRowsKeepsMatches(data: seq<History>, prodInput: string, chanInput: string, locInput: string)
    ensures forall h :: h in FilterRows(data, prodInput, chanInput, locInput) <==>
      && h in data
      && IdMatches(h.ProductID, Needle(prodInput))
      && IdMatches(h.ChannelID, Needle(chanInput))
      && IdMatches(h.LocationID, Needle(locInput))
    ensures forall h :: multiset(FilterRows(data, prodInput, chanInput, locInput))[h] ==
              if IdMatches(h.ProductID, Needle(prodInput)) && IdMatches(h.ChannelID, Needle(chanInput)) && IdMatches(h.LocationID, Needle(locInput))
              then multiset(data)[h] else 0
    ensures IsSubsequence(FilterRows(data, prodInput, chanInput, locInput), data)
    ensures AllWhitespace(prodInput) && AllWhitespace(chanInput) && AllWhitespace(locInput) ==>
      FilterRows(data, prodInput, chanInput, locInput) == data
  {
    KeyFilterKeepsMatches(data, Key, prodInput, chanInput, locInput);
  }

  // ----- Sorting and export -----

  function SortKey(col: Column): History -> string {
    (h: History) => Lower(Cell(h, col))
  }

  /** The exported CSV text, or nothing when no row is shown. */
  function CsvExport(rows: seq<History>): (csv: Option<string>)
    ensures csv.None? <==> rows == []
  {
    if rows == [] then None else Some(UnescapedDocument(Header, Map(rows, Cells)))
  }

  lemma HeaderIsPlain()
    ensures forall k :: 0 <= k < |Header| ==> ',' !in Header[k] && '\r' !in Header[k]
  {
  }

  /** Read back, the export gives the header and every shown row's cells, provided no cell holds a quote. */
  lemma CsvExportReadsBack(rows: seq<History>)
    requires rows != []
    requires forall i, k :: 0 <= i < |rows| && 0 <= k < |Cells(rows[i])| ==> '"' !in Cells(rows[i])[k]
    ensures ParseDocument(CsvExport(rows).value) == Some((Header, Map(rows, Cells)))
  {
    HeaderIsPlain();
    UnescapedDocumentRoundTrip(Header, Map(rows, Cells));
  }

  // ----- Messages -----

  const LoadFailedMessage := "Failed to load history."
  const NoMatchesMessage := "No matches for this saved query."
  const ChooseSavedMessage := "Please choose a saved search first."

  /** The bulk endpoint family the screen posts the keys to. */
  const BulkKind := "history"

  class HistoryComponent {
    var historyData: seq<History>
    var filteredHistory: seq<History>
    /** The three local filter inputs and the period selector, as the template sets them. */
    var productSearch: string
    var channelSearch: string
    var locationSearch: string
    var periodSelection: string
    var errorMessage: Option<string>
    var currentPage: int
    var totalPages: int
    var sortColumn: Option<Column>
    var sortAsc: bool
    const itemsPerPage: nat := 20

    /** The page shown always lies within the page count. */
    ghost predicate Valid()
      reads this
    {
      1 <= currentPage <= totalPages
    }

    constructor ()
      ensures Valid()
      ensures historyData == [] && filteredHistory == []
      ensures productSearch == "" && channelSearch == "" && locationSearch == "" && periodSelection == "Daily"
      ensures errorMessage == None && currentPage == 1 && totalPages == 1
      ensures sortColumn == None && sortAsc
    {
      historyData := [];
      filteredHistory := [];
      productSearch := "";
      channelSearch := "";
      locationSearch := "";
      periodSelection := "Daily";
      errorMessage := None;
      currentPage := 1;
      totalPages := 1;
      sortColumn := None;
      sortAsc := true;
    }

    /** `updatePagination`: recount the pages and pull the current page back inside them. */
    method UpdatePagination()
      requires Valid()
      modifies this`totalPages, this`currentPage
      ensures Valid()
      ensures totalPages == TotalPages(|filteredHistory|, itemsPerPage)
      ensures currentPage == if old(currentPage) > totalPages then totalPages else old(currentPage)
    {
      totalPages := Max(1, CeilDiv(|filteredHistory|, itemsPerPage));
      if currentPage > totalPages {
        currentPage := totalPages;
      }
    }

    method SetPage(page: int)
      requires Valid()
      modifies this`currentPage
      ensures Valid()
      ensures currentPage == ClampPage(page, totalPages)
    {
      var total := Max(1, totalPages);
      currentPage := Min(Max(1, page), total);
    }

    /** `paginatedData`: the rows of the current page. */
    function PaginatedData(): (r: seq<History>)
      reads this
      ensures |r| <= itemsPerPage
      ensures currentPage >= 1 ==>
        r == filteredHistory[Min((currentPage - 1) * itemsPerPage, |filteredHistory|)..Min(currentPage * itemsPerPage, |filteredHistory|)]
    {
      PageShape(filteredHistory, currentPage, itemsPerPage);
      if currentPage >= 1 then PageOfPositive(filteredHistory, currentPage, itemsPerPage); Page(filteredHistory, currentPage, itemsPerPage)
      else Page(filteredHistory, currentPage, itemsPerPage)
    }

    /** `pageRange`: the page numbers 1..totalPages. */
    function PageNumbers(): (r: seq<int>)
      reads this
      ensures Valid() ==> |r| == totalPages
      ensures forall i :: 0 <= i < |r| ==> r[i] == i + 1
    {
      PageRange(totalPages)
    }

    /** `visiblePages`: the pager's page numbers. */
    method VisiblePages() returns (pages: seq<int>)
      requires Valid()
      ensures pages == PagerWindow(totalPages, currentPage)
      ensures |pages| == Min(totalPages, 5) && currentPage in pages
      ensures forall i :: 0 <= i < |pages| ==> 1 <= pages[i] <= totalPages
      ensures forall i :: 0 < i < |pages| ==> pages[i] == pages[i - 1] + 1
    {
      pages := CentredPages(totalPages, currentPage);
      PagerWindowShape(totalPages, currentPage);
    }

    /** `applyFilters`: keep the rows matching the three inputs and go to page 1. */
    method ApplyFilters()
      requires Valid()
      modifies this`filteredHistory, this`currentPage, this`totalPages
      ensures Valid()
      ensures filteredHistory == FilterRows(historyData, productSearch, channelSearch, locationSearch)
      ensures currentPage == 1 && totalPages == TotalPages(|filteredHistory|, itemsPerPage)
    {
      filteredHistory := FilterRows(historyData, productSearch, channelSearch, locationSearch);
      currentPage := 1;
      UpdatePagination();
    }

    /** `clearAllFilters`: blank the three inputs; each change re-applies the filters, which then keep every row. */
    method ClearAllFilters()
      requires Valid()
      modifies this`productSearch, this`channelSearch, this`locationSearch
      modifies this`filteredHistory, this`currentPage, this`totalPages
      ensures Valid()
      ensures productSearch == "" && channelSearch == "" && locationSearch == ""
      ensures filteredHistory == historyData
      ensures currentPage == 1 && totalPages == TotalPages(|historyData|, itemsPerPage)
    {
      productSearch := "";
      ApplyFilters();
      channelSearch := "";
      ApplyFilters();
      locationSearch := "";
      ApplyFilters();
      FilterRowsKeepsMatches(historyData, productSearch, channelSearch, locationSearch);
    }

    /** `sortBy`: toggle the direction on a repeated column, then sort the shown rows by the lower-cased cell. */
    method SortBy(column: Column)
      modifies this`sortColumn, this`sortAsc, this`filteredHistory
      ensures sortColumn == Some(column)
      ensures sortAsc == if old(sortColumn) == Some(column) then !old(sortAsc) else true
      ensures filteredHistory == Sorting.SortBy(old(filteredHistory), SortKey(column), sortAsc)
      ensures multiset(filteredHistory) == multiset(old(filteredHistory))
      ensures Sorting.SortedBy(filteredHistory, SortKey(column), sortAsc)
    {
      if sortColumn == Some(column) {
        sortAsc := !sortAsc;
      } else {
        sortColumn := Some(column);
        sortAsc := true;
      }
      Sorting.SortBySpec(filteredHistory, SortKey(column), sortAsc);
      filteredHistory := Sorting.SortBy(filteredHistory, SortKey(column), sortAsc);
    }

    /**
     * `runQueryAndLoadHistory`: clear the rows and go to page 1, resolve the query
     * to keys, then fetch the history of the keys in the selected bucket and show
     * it through the local filters. No keys end with a message (unless silent)
     * and an empty table; a failure of either request sets the error text and
     * leaves the page count as it was.
     */
    method RunQueryAndLoadHistory(q: string, silentIfNoKeys: bool, search: SearchOutcome, fetch: FetchOutcome)
      returns (request: SearchRequest, bulk: Option<BulkRequest>)
      requires Valid()
      modifies this`historyData, this`filteredHistory, this`currentPage, this`totalPages, this`errorMessage
      ensures Valid()
      ensures request == SearchRequest(q, SeriesSearchLimit, 0)
      ensures bulk == if search.Found? && search.keys != [] then Some(BulkRequest(BulkKind, BucketSlug(periodSelection), search.keys)) else None
      ensures historyData == if bulk.Some? && fetch.Fetched? then Map(fetch.rows, ToHistory) else []
      ensures filteredHistory == FilterRows(historyData, productSearch, channelSearch, locationSearch)
      ensures currentPage == 1
      ensures search.Found? && (search.keys == [] || fetch.Fetched?) ==>
        totalPages == TotalPages(|filteredHistory|, itemsPerPage)
      ensures search.SearchFailed? || (search.keys != [] && fetch.FetchFailed?) ==>
        totalPages == old(totalPages)
      ensures errorMessage ==
        if search.SearchFailed? then Some(ErrorText(search.detail, LoadFailedMessage))
        else if search.keys == [] then (if silentIfNoKeys then None else Some(NoMatchesMessage))
        else if fetch.FetchFailed? then Some(ErrorText(fetch.detail, LoadFailedMessage))
        else None
    {
      KeyFilterOfNothing(Key, productSearch, channelSearch, locationSearch);
      errorMessage := None;
      historyData := [];
      filteredHistory := [];
      currentPage := 1;
      request := SearchRequest(q, SeriesSearchLimit, 0);
      bulk := None;
      match search
      case SearchFailed(detail) =>
        errorMessage := Some(ErrorText(detail, LoadFailedMessage));
      case Found(keys) =>
        if |keys| == 0 {
          if !silentIfNoKeys {
            errorMessage := Some(NoMatchesMessage);
          }
          UpdatePagination();
          return;
        }
        bulk := Some(BulkRequest(BulkKind, BucketSlug(periodSelection), keys));
        match fetch
        case FetchFailed(detail) =>
          errorMessage := Some(ErrorText(detail, LoadFailedMessage));
        case Fetched(rows) =>
          ShowRows(Map(rows, ToHistory));
    }

    /** The success path of `runQueryAndLoadHistory`: keep the fetched rows, show them all, then apply the filters. */
    method ShowRows(rows: seq<History>)
      requires Valid()
      modifies this`historyData, this`filteredHistory, this`currentPage, this`totalPages
      ensures Valid()
      ensures historyData == rows
      ensures filteredHistory == FilterRows(rows, productSearch, channelSearch, locationSearch)
      ensures currentPage == 1 && totalPages == TotalPages(|filteredHistory|, itemsPerPage)
    {
      historyData := rows;
      filteredHistory := historyData;
      UpdatePagination();
      ApplyFilters();
    }

    /** `loadFromSaved`: an index out of range only sets an error; otherwise the saved query is run. */
    method LoadFromSaved(saved: seq<SavedSearch>, idx: int, search: SearchOutcome, fetch: FetchOutcome)
      returns (request: Option<SearchRequest>, bulk: Option<BulkRequest>)
      requires Valid()
      modifies this`historyData, this`filteredHistory, this`currentPage, this`totalPages, this`errorMessage
      ensures Valid()
      ensures (idx < 0 || idx >= |saved|) ==>
        && request.None? && bulk.None? && errorMessage == Some(ChooseSavedMessage)
        && historyData == old(historyData) && filteredHistory == old(filteredHistory)
        && currentPage == old(currentPage) && totalPages == old(totalPages)
      ensures 0 <= idx < |saved| ==> request == Some(SearchRequest(saved[idx].query, SeriesSearchLimit, 0))
      ensures 0 <= idx < |saved| ==>
        && bulk == (if search.Found? && search.keys != [] then Some(BulkRequest(BulkKind, BucketSlug(periodSelection), search.keys)) else None)
        && historyData == (if bulk.Some? && fetch.Fetched? then Map(fetch.rows, ToHistory) else [])
        && filteredHistory == FilterRows(historyData, productSearch, channelSearch, locationSearch)
        && currentPage == 1
        && (search.Found? && (search.keys == [] || fetch.Fetched?) ==>
              totalPages == TotalPages(|filteredHistory|, itemsPerPage))
        && (search.SearchFailed? || (search.keys != [] && fetch.FetchFailed?) ==>
              totalPages == old(totalPages))
        && errorMessage ==
             if search.SearchFailed? then Some(ErrorText(search.detail, LoadFailedMessage))
             else if search.keys == [] then Some(NoMatchesMessage)
             else if fetch.FetchFailed? then Some(ErrorText(fetch.detail, LoadFailedMessage))
             else None
    {
      errorMessage := None;
      var q := SelectedQuery(saved, idx);
      if q.None? {
        errorMessage := Some(ChooseSavedMessage);
        return None, None;
      }
      var r;
      r, bulk := RunQueryAndLoadHistory(q.value, false, search, fetch);
      request := Some(r);
    }

    /** `reloadWithSameQueryIfAny`: with a saved search selected, run it again without the no-match message. */
    method ReloadWithSameQueryIfAny(saved: seq<SavedSearch>, idx: int, search: SearchOutcome, fetch: FetchOutcome)
      returns (request: Option<SearchRequest>, bulk: Option<BulkRequest>)
      requires Valid()
      modifies this`historyData, this`filteredHistory, this`currentPage, this`totalPages, this`errorMessage
      ensures Valid()
      ensures (idx < 0 || idx >= |saved|) ==>
        && request.None? && bulk.None? && errorMessage == old(errorMessage)
        && historyData == old(historyData) && filteredHistory == old(filteredHistory)
        && currentPage == old(currentPage) && totalPages == old(totalPages)
      ensures 0 <= idx < |saved| ==>
        && request == Some(SearchRequest(saved[idx].query, SeriesSearchLimit, 0))
        && bulk == (if search.Found? && search.keys != [] then Some(BulkRequest(BulkKind, BucketSlug(periodSelection), search.keys)) else None)
        && historyData == (if bulk.Some? && fetch.Fetched? then Map(fetch.rows, ToHistory) else [])
        && filteredHistory == FilterRows(historyData, productSearch, channelSearch, locationSearch)
        && currentPage == 1
        && (search.Found? && (search.keys == [] || fetch.Fetched?) ==>
              totalPages == TotalPages(|filteredHistory|, itemsPerPage))
        && (search.SearchFailed? || (search.keys != [] && fetch.FetchFailed?) ==>
              totalPages == old(totalPages))
        && errorMessage ==
             if search.SearchFailed? then Some(ErrorText(search.detail, LoadFailedMessage))
             else if search.keys == [] then None
             else if fetch.FetchFailed? then Some(ErrorText(fetch.detail, LoadFailedMessage))
             else None
    {
      if 0 <= idx < |saved| {
        var r;
        r, bulk := RunQueryAndLoadHistory(saved[idx].query, true, search, fetch);
        request := Some(r);
      } else {
        request, bulk := None, None;
      }
    }

    /** A change of the period selector reloads the selected saved search in the new bucket. */
    method OnPeriodChange(period: string, saved: seq<SavedSearch>, idx: int, search: SearchOutcome, fetch: FetchOutcome)
      returns (request: Option<SearchRequest>, bulk: Option<BulkRequest>)
      requires Valid()
      modifies this`periodSelection
      modifies this`historyData, this`filteredHistory, this`currentPage, this`totalPages, this`errorMessage
      ensures Valid()
      ensures periodSelection == period
      ensures (idx < 0 || idx >= |saved|) ==>
        && request.None? && bulk.None? && errorMessage == old(errorMessage)
        && historyData == old(historyData) && filteredHistory == old(filteredHistory)
        && currentPage == old(currentPage) && totalPages == old(totalPages)
      ensures 0 <= idx < |saved| ==>
        && request == Some(SearchRequest(saved[idx].query, SeriesSearchLimit, 0))
        && bulk == (if search.Found? && search.keys != [] then Some(BulkRequest(BulkKind, BucketSlug(period), search.keys)) else None)
        && historyData == (if bulk.Some? && fetch.Fetched? then Map(fetch.rows, ToHistory) else [])
        && filteredHistory == FilterRows(historyData, productSearch, channelSearch, locationSearch)
        && currentPage == 1
        && (search.Found? && (search.keys == [] || fetch.Fetched?) ==>
              totalPages == TotalPages(|filteredHistory|, itemsPerPage))
        && (search.SearchFailed? || (search.keys != [] && fetch.FetchFailed?) ==>
              totalPages == old(totalPages))
        && errorMessage ==
             if search.SearchFailed? then Some(ErrorText(search.detail, LoadFailedMessage))
             else if search.keys == [] then None
             else if fetch.FetchFailed? then Some(ErrorText(fetch.detail, LoadFailedMessage))
             else None
    {
      periodSelection := period;
      request, bulk := ReloadWithSameQueryIfAny(saved, idx, search, fetch);
    }
  }
}
