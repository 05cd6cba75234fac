/**
 * The location screen: the location master grid, the typed and saved searches
 * that narrow it to the locations the backend returns keys for, and the one CSV
 * export that escapes quotes.
 */
module LocationScreen {
  import opened Wrappers
  import opened Text
  import opened Seqs
  import Sorting
  import opened Paging
  import opened Csv
  import opened Backend
  import opened QueryFragments

  datatype Location = Location(LocationID: string, LocationDescr: string, Level: string, Geography: string)

  /** The sortable columns (`keyof ILocation`). */
  datatype Column = LocationID | LocationDescr | Level | Geography

  function Cell(l: Location, col: Column): string {
    match col
    case LocationID => l.LocationID
    case LocationDescr => l.LocationDescr
    case Level => l.Level
    case Geography => l.Geography
  }

  /** The keys of a loaded row, in the order the loader builds it. */
  const Header: seq<string> := ["LocationID", "LocationDescr", "Level", "Geography"]

  /** A row's cells in header order. */
  function Cells(l: Location): seq<string> {
    [l.LocationID, l.LocationDescr, l.Level, l.Geography]
  }

  /** A raw backend row's fields in header order, a missing one as `''`. */
  function RawCells(r: RawRow): seq<string> {
    seq(|Header|, k requires 0 <= k < |Header| => FieldOr(r, Header[k]))
  }

  /** The loader's normalisation of one backend row. */
  function ToLocation(r: RawRow): Location {
    Location(FieldOr(r, "LocationID"), FieldOr(r, "LocationDescr"), FieldOr(r, "Level"), FieldOr(r, "Geography"))
  }

  /** A loaded row holds, column for column, the backend row's field of that name. */
  lemma ToLocationKeepsFields(r: RawRow)
    ensures Cells(ToLocation(r)) == RawCells(r)
  {
    assert Header[0] == "LocationID" && Header[1] == "LocationDescr";
    assert Header[2] == "Level" && Header[3] == "Geography";
  }

  // ----- Field registry and query building -----

  /** The tags `savedQueryHasLocationField` looks for. */
  const LocationTags: seq<string> := ["locationid:", "locationdescr:", "locationlevel:", "geography:"]

  predicate SavedQueryHasLocationField(q: string) {
    MentionsAny(q, LocationTags)
  }

  /** The cases of `backendFieldFor`: lower-case UI field name, backend token. */
  const FieldCases: seq<(string, string)> :=
    [("locationid", "locationid"), ("locationdescr", "locationdescr"), ("level", "locationlevel"), ("geography", "geography")]

  /** `backendFieldFor`: the backend token of a UI field name, compared in lower case. */
  function BackendFieldFor(uiField: string): Option<string> {
    Lookup(FieldCases, Lower(uiField))
  }

  /** The field name is compared without regard to letter case. */
  lemma BackendFieldForIgnoresCase(uiField: string)
    ensures BackendFieldFor(Lower(uiField)) == BackendFieldFor(uiField)
  {
    LowerIdempotent(uiField);
  }

  /** Each case's token, followed by `:`, is the tag in the same place. */
  lemma CaseTokensAreTags()
    ensures |FieldCases| == |LocationTags|
    ensures forall k :: 0 <= k < |FieldCases| ==> FieldCases[k].1 + ":" == LocationTags[k]
    ensures forall k :: 0 <= k < |FieldCases| ==> IsLowerCase(FieldCases[k].1) && ':' !in FieldCases[k].1
  {
  }

  /**
   * Every token the registry yields is a lower-case name without `:` whose tag
   * the saved-query check looks for.
   */
  lemma BackendFieldForTagged(uiField: string)
    ensures BackendFieldFor(uiField).Some? ==>
      && BackendFieldFor(uiField).value + ":" in LocationTags
      && IsLowerCase(BackendFieldFor(uiField).value) && ':' !in BackendFieldFor(uiField).value
  {
    CaseTokensAreTags();
  }

  /**
   * `buildLocationQuery`: nothing for an unknown field or a blank term, otherwise
   * the fragment of the field's token and the term; a built query always passes
   * the screen's own saved-query check.
   */
  function BuildLocationQuery(fieldUI: string, term: string): (q: Option<string>)
    ensures q.None? <==> BackendFieldFor(fieldUI).None? || AllWhitespace(term)
    ensures q.Some? ==> SavedQueryHasLocationField(q.value)
  {
    match BackendFieldFor(fieldUI)
    case None => None
    case Some(field) =>
      if AllWhitespace(term) then None
      else
        BackendFieldForTagged(fieldUI);
        FragmentMentionsField(field, term, LocationTags);
        Fragment(field, term)
  }

  /** A built query reads back as the field's token and the search pattern of the trimmed term. */
  lemma BuildLocationQueryReadsBack(fieldUI: string, term: string)
    requires BuildLocationQuery(fieldUI, term).Some? && '"' !in term
    ensures ParseFragment(BuildLocationQuery(fieldUI, term).value) ==
      Some((BackendFieldFor(fieldUI).value, Pattern(Trim(term))))
  {
    BackendFieldForTagged(fieldUI);
    FragmentRoundTrip(BackendFieldFor(fieldUI).value, term);
  }

  // ----- Reconciliation -----

  /** `new Set(keys.map(k => k.LocationID))`. */
  function KeyLocationIds(keys: seq<KeyTriplet>): set<string> {
    set k | k in keys :: k.LocationID
  }

  function HasIdIn(ids: set<string>): Location -> bool {
    (l: Location) => l.LocationID in ids
  }

  /** The search results: the master rows whose LocationID is among the returned keys'. */
  function Reconcile(data: seq<Location>, keys: seq<KeyTriplet>): seq<Location> {
    Filter(data, HasIdIn(KeyLocationIds(keys)))
  }

  /**
   * Reconciliation keeps exactly the master rows whose LocationID some returned
   * key carries, each as often as in the master data, in master order; no keys
   * keep nothing.
   */
  lemma ReconcileKeepsKeyedRows(data: seq<Location>, keys: seq<KeyTriplet>)
    ensures forall l :: l in Reconcile(data, keys) <==> l in data && exists k :: k in keys && k.LocationID == l.LocationID
    ensures forall l :: multiset(Reconcile(data, keys))[l] ==
                        if l.LocationID in KeyLocationIds(keys) then multiset(data)[l] else 0
    ensures IsSubsequence(Reconcile(data, keys), data)
    ensures keys == [] ==> Reconcile(data, keys) == []
  {
    FilterSpec(data, HasIdIn(KeyLocationIds(keys)));
    if keys == [] {
      FilterNone(data, HasIdIn(KeyLocationIds(keys)));
    }
  }

  // ----- Sorting and export -----

  function SortKey(col: Column): Location -> string {
    (l: Location) => Lower(Cell(l, col))
  }

  /** The rows `exportToCSV` writes: the shown rows, or all loaded rows when none is shown. */
  function ExportedRows(filtered: seq<Location>, all: seq<Location>): seq<Location> {
    if filtered != [] then filtered else all
  }

  /**
   * The exported CSV text, every cell quoted with its quotes doubled, or nothing
   * when neither the shown nor the loaded rows hold a row.
   */
  function CsvExport(filtered: seq<Location>, all: seq<Location>): (csv: Option<string>)
    ensures csv.None? <==> filtered == [] && all == []
  {
    var rows := ExportedRows(filtered, all);
    if rows == [] then None else Some(EscapedDocument(Header, Map(rows, Cells)))
  }

  lemma HeaderIsPlain()
    ensures forall k :: 0 <= k < |Header| ==> ',' !in Header[k] && '\r' !in Header[k]
  {
  }

  /**
   * Read back, the export gives the header and the cells of the exported rows,
   * whatever the cells contain.
   */
  lemma CsvExportReadsBack(filtered: seq<Location>, all: seq<Location>)
    requires filtered != [] || all != []
    ensures ParseDocument(CsvExport(filtered, all).value) == Some((Header, Map(ExportedRows(filtered, all), Cells)))
  {
    HeaderIsPlain();
    EscapedDocumentRoundTrip(Header, Map(ExportedRows(filtered, all), Cells));
  }

  // ----- Messages -----

  const LoadFailedMessage := "Failed to load locations."
  const InvalidFieldMessage := "Please choose a valid location attribute."
  const ChooseSavedMessage := "Please choose a saved search."
  const NotLocationQueryMessage :=
    "This saved search does not include location attributes. The Location page only runs searches with location fields."

  class LocationComponent {
    var locationData: seq<Location>
    var searchResults: seq<Location>
    var filteredData: seq<Location>
    var errorMessage: Option<string>
    var currentPage: int
    var totalPages: int
    var sortColumn: Option<Column>
    var sortAsc: bool
    const itemsPerPage: nat := 5

    /** The page shown always lies within the page count. */
    ghost predicate Valid()
      reads this
    {
      1 <= currentPage <= totalPages
    }

    constructor ()
      ensures Valid()
      ensures locationData == [] && searchResults == [] && filteredData == []
      ensures errorMessage == None && currentPage == 1 && totalPages == 1
      ensures sortColumn == None && sortAsc
    {
      locationData := [];
      searchResults := [];
      filteredData := [];
      errorMessage := None;
      currentPage := 1;
      totalPages := 1;
      sortColumn := None;
      sortAsc := true;
    }

    /** `updatePagination`: recount the pages and pull the current page back inside them. */
    method UpdatePagination()
      requires Valid()
      modifies this`totalPages, this`currentPage
      ensures Valid()
      ensures totalPages == TotalPages(|filteredData|, itemsPerPage)
      ensures currentPage == if old(currentPage) > totalPages then totalPages else old(currentPage)
    {
      totalPages := Max(1, CeilDiv(|filteredData|, itemsPerPage));
      if currentPage > totalPages {
        currentPage := totalPages;
      }
    }

    method SetPage(page: int)
      requires Valid()
      modifies this`currentPage
      ensures Valid()
      ensures currentPage == ClampPage(page, totalPages)
    {
      var total := Max(1, totalPages);
      currentPage := Min(Max(1, page), total);
    }

    /** `paginatedData`: the rows of the current page. */
    function PaginatedData(): (r: seq<Location>)
      reads this
      ensures |r| <= itemsPerPage
      ensures currentPage >= 1 ==>
        r == filteredData[Min((currentPage - 1) * itemsPerPage, |filteredData|)..Min(currentPage * itemsPerPage, |filteredData|)]
    {
      PageShape(filteredData, currentPage, itemsPerPage);
      if currentPage >= 1 then PageOfPositive(filteredData, currentPage, itemsPerPage); Page(filteredData, currentPage, itemsPerPage)
      else Page(filteredData, currentPage, itemsPerPage)
    }

    /** `pageRange`: the page numbers 1..totalPages. */
    function PageNumbers(): (r: seq<int>)
      reads this
      ensures Valid() ==> |r| == totalPages
      ensures forall i :: 0 <= i < |r| ==> r[i] == i + 1
    {
      PageRange(totalPages)
    }

    /** `visiblePages`: the pager's page numbers. */
    method VisiblePages() returns (pages: seq<int>)
      requires Valid()
      ensures pages == PagerWindow(totalPages, currentPage)
      ensures |pages| == Min(totalPages, 5) && currentPage in pages
      ensures forall i :: 0 <= i < |pages| ==> 1 <= pages[i] <= totalPages
      ensures forall i :: 0 < i < |pages| ==> pages[i] == pages[i - 1] + 1
    {
      pages := CentredPages(totalPages, currentPage);
      PagerWindowShape(totalPages, currentPage);
    }

    /** The screen's `searchResults = []; filteredData = []; updatePagination()`. */
    method ClearResults()
      requires Valid()
      modifies this`searchResults, this`filteredData, this`currentPage, this`totalPages
      ensures Valid()
      ensures searchResults == [] && filteredData == [] && currentPage == 1 && totalPages == 1
    {
      searchResults := [];
      filteredData := [];
      UpdatePagination();
    }

    /** `sortBy`: toggle the direction on a repeated column, then sort the shown rows by the lower-cased cell. */
    method SortBy(column: Column)
      modifies this`sortColumn, this`sortAsc, this`filteredData
      ensures sortColumn == Some(column)
      ensures sortAsc == if old(sortColumn) == Some(column) then !old(sortAsc) else true
      ensures filteredData == Sorting.SortBy(old(filteredData), SortKey(column), sortAsc)
      ensures multiset(filteredData) == multiset(old(filteredData))
      ensures Sorting.SortedBy(filteredData, SortKey(column), sortAsc)
    {
      if sortColumn == Some(column) {
        sortAsc := !sortAsc;
      } else {
        sortColumn := Some(column);
        sortAsc := true;
      }
      Sorting.SortBySpec(filteredData, SortKey(column), sortAsc);
      filteredData := Sorting.SortBy(filteredData, SortKey(column), sortAsc);
    }

    /** `loadLocations`: normalise the rows and clear the results. */
    method LoadLocations(outcome: FetchOutcome)
      requires Valid()
      modifies this`locationData, this`searchResults, this`filteredData
      modifies this`totalPages, this`currentPage, this`errorMessage
      ensures Valid()
      ensures outcome.Fetched? ==>
        && locationData == Map(outcome.rows, ToLocation)
        && searchResults == [] && filteredData == [] && currentPage == 1 && totalPages == 1
        && errorMessage == old(errorMessage)
      ensures outcome.FetchFailed? ==>
        && errorMessage == Some(LoadFailedMessage)
        && locationData == old(locationData)
        && searchResults == old(searchResults) && filteredData == old(filteredData)
        && currentPage == old(currentPage) && totalPages == old(totalPages)
    {
      match outcome
      case FetchFailed(_) =>
        errorMessage := Some(LoadFailedMessage);
      case Fetched(rows) =>
        locationData := Map(rows, ToLocation);
        ClearResults();
    }

    /**
     * `runQueryAndFilterLocations`: issue the search; on keys the matching master
     * rows become the results and the shown rows, on page 1; on no keys or a
     * failure nothing is shown.
     */
    method RunQueryAndFilterLocations(q: string, outcome: SearchOutcome)
      returns (request: SearchRequest)
      requires Valid()
      modifies this`searchResults, this`filteredData, this`currentPage, this`totalPages, this`errorMessage
      ensures Valid()
      ensures request == SearchRequest(q, MasterSearchLimit, 0)
      ensures searchResults == if outcome.Found? then Reconcile(locationData, outcome.keys) else []
      ensures filteredData == searchResults
      ensures currentPage == 1 && totalPages == TotalPages(|filteredData|, itemsPerPage)
      ensures errorMessage == if outcome.SearchFailed? then Some(ErrorText(outcome.detail, SearchFailedMessage)) else old(errorMessage)
    {
      request := SearchRequest(q, MasterSearchLimit, 0);
      match outcome
      case SearchFailed(detail) =>
        errorMessage := Some(ErrorText(detail, SearchFailedMessage));
        ClearResults();
      case Found(keys) =>
        if |keys| == 0 {
          ReconcileKeepsKeyedRows(locationData, keys);
          ClearResults();
          return;
        }
        searchResults := Reconcile(locationData, keys);
        filteredData := searchResults;
        currentPage := 1;
        UpdatePagination();
    }

    /**
     * `performSearch`: a blank term clears the results; an unknown field sets an
     * error and clears them; otherwise the built query is run.
     */
    method PerformSearch(term: string, field: string, outcome: SearchOutcome)
      returns (request: Option<SearchRequest>)
      requires Valid()
      modifies this`searchResults, this`filteredData, this`currentPage, this`totalPages, this`errorMessage
      ensures Valid()
      ensures var q := BuildLocationQuery(if field == "" then "LocationID" else field, term);
        && (request.Some? <==> !AllWhitespace(term) && q.Some?)
        && (request.Some? ==> request.value == SearchRequest(q.value, MasterSearchLimit, 0))
        && (errorMessage ==
              if AllWhitespace(term) then None
              else if q.None? then Some(InvalidFieldMessage)
              else if outcome.SearchFailed? then Some(ErrorText(outcome.detail, SearchFailedMessage))
              else None)
      ensures searchResults == if request.Some? && outcome.Found? then Reconcile(locationData, outcome.keys) else []
      ensures filteredData == searchResults
      ensures currentPage == 1 && totalPages == TotalPages(|filteredData|, itemsPerPage)
    {
      errorMessage := None;
      if AllWhitespace(term) {
        ClearResults();
        return None;
      }
      var q := BuildLocationQuery(if field == "" then "LocationID" else field, term);
      if q.None? {
        errorMessage := Some(InvalidFieldMessage);
        ClearResults();
        return None;
      }
      var r := RunQueryAndFilterLocations(q.value, outcome);
      request := Some(r);
    }

    /**
     * `loadFromSaved`: an index out of range only sets an error; a saved query
     * without a location tag sets an error and clears the results; otherwise the
     * saved query is run.
     */
    method LoadFromSaved(saved: seq<SavedSearch>, idx: int, outcome: SearchOutcome)
      returns (request: Option<SearchRequest>)
      requires Valid()
      modifies this`searchResults, this`filteredData, this`currentPage, this`totalPages, this`errorMessage
      ensures Valid()
      ensures (idx < 0 || idx >= |saved|) ==>
        && request.None? && errorMessage == Some(ChooseSavedMessage)
        && searchResults == old(searchResults) && filteredData == old(filteredData)
        && currentPage == old(currentPage) && totalPages == old(totalPages)
      ensures 0 <= idx < |saved| && !SavedQueryHasLocationField(saved[idx].query) ==>
        && request.None? && errorMessage == Some(NotLocationQueryMessage)
        && searchResults == [] && filteredData == [] && currentPage == 1 && totalPages == 1
      ensures 0 <= idx < |saved| && SavedQueryHasLocationField(saved[idx].query) ==>
        && request == Some(SearchRequest(saved[idx].query, MasterSearchLimit, 0))
        && searchResults == (if outcome.Found? then Reconcile(locationData, outcome.keys) else [])
        && filteredData == searchResults
        && currentPage == 1 && totalPages == TotalPages(|filteredData|, itemsPerPage)
        && errorMessage == (if outcome.SearchFailed? then Some(ErrorText(outcome.detail, SearchFailedMessage)) else None)
    {
      errorMessage := None;
      var q := SelectedQuery(saved, idx);
      if q.None? {
        errorMessage := Some(ChooseSavedMessage);
        return None;
      }
      if !SavedQueryHasLocationField(q.value) {
        errorMessage := Some(NotLocationQueryMessage);
        ClearResults();
        return None;
      }
      var r := RunQueryAndFilterLocations(q.value, outcome);
      request := Some(r);
    }
  }
}
