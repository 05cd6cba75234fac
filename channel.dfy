/**
 * The channel screen: the channel master grid and the typed and saved searches
 * that narrow it to the channels the backend returns keys for.
 */
module ChannelScreen {
  import opened Wrappers
  import opened Text
  import opened Seqs
  import Sorting
  import opened Paging
  import opened Csv
  import opened Backend
  import opened QueryFragments

  datatype Channel = Channel(ChannelID: string, ChannelDescr: string, Level: string)

  /** The sortable columns (`keyof IChannel`). */
  datatype Column = ChannelID | ChannelDescr | Level

  function Cell(c: Channel, col: Column): string {
    match col
    case ChannelID => c.ChannelID
    case ChannelDescr => c.ChannelDescr
    case Level => c.Level
  }

  /** The keys of a loaded row, in the order the loader builds it. */
  const Header: seq<string> := ["ChannelID", "ChannelDescr", "Level"]

  /** A row's cells in header order. */
  function Cells(c: Channel): seq<string> {
    [c.ChannelID, c.ChannelDescr, c.Level]
  }

  /** A raw backend row's fields in header order, a missing one as `''`. */
  function RawCells(r: RawRow): seq<string> {
    seq(|Header|, k requires 0 <= k < |Header| => FieldOr(r, Header[k]))
  }

  /** The loader's normalisation of one backend row. */
  function ToChannel(r: RawRow): Channel {
    Channel(FieldOr(r, "ChannelID"), FieldOr(r, "ChannelDescr"), FieldOr(r, "Level"))
  }

  /** A loaded row holds, column for column, the backend row's field of that name. */
  lemma ToChannelKeepsFields(r: RawRow)
    ensures Cells(ToChannel(r)) == RawCells(r)
  {
    assert Header[0] == "ChannelID" && Header[1] == "ChannelDescr" && Header[2] == "Level";
  }

  // ----- Field registry and query building -----

  /** The tags `savedQueryHasChannelField` looks for. */
  const ChannelTags: seq<string> := ["channelid:", "channeldescr:", "channellevel:"]

  predicate SavedQueryHasChannelField(q: string) {
    MentionsAny(q, ChannelTags)
  }

  /** The cases of `backendFieldFor`: lower-case UI field name, backend token. */
  const FieldCases: seq<(string, string)> :=
    [("channelid", "channelid"), ("channeldescr", "channeldescr"), ("level", "channellevel")]

  /** `backendFieldFor`: the backend token of a UI field name, compared in lower case. */
  function BackendFieldFor(uiField: string): Option<string> {
    Lookup(FieldCases, Lower(uiField))
  }

  /** The field name is compared without regard to letter case. */
  lemma BackendFieldForIgnoresCase(uiField: string)
    ensures BackendFieldFor(Lower(uiField)) == BackendFieldFor(uiField)
  {
    LowerIdempotent(uiField);
  }

  /** Each case's token, followed by `:`, is the tag in the same place. */
  lemma CaseTokensAreTags()
    ensures |FieldCases| == |ChannelTags|
    ensures forall k :: 0 <= k < |FieldCases| ==> FieldCases[k].1 + ":" == ChannelTags[k]
    ensures forall k :: 0 <= k < |FieldCases| ==> IsLowerCase(FieldCases[k].1) && ':' !in FieldCases[k].1
  {
  }

  /**
   * Every token the registry yields is a lower-case name without `:` whose tag
   * the saved-query check looks for.
   */
  lemma BackendFieldForTagged(uiField: string)
    ensures BackendFieldFor(uiField).Some? ==>
      && BackendFieldFor(uiField).value + ":" in ChannelTags
      && IsLowerCase(BackendFieldFor(uiField).value) && ':' !in BackendFieldFor(uiField).value
  {
    CaseTokensAreTags();
  }

  /**
   * `buildChannelQuery`: nothing for an unknown field or a blank term, otherwise
   * the fragment of the field's token and the term; a built query always passes
   * the screen's own saved-query check.
   */
  function BuildChannelQuery(fieldUI: string, term: string): (q: Option<string>)
    ensures q.None? <==> BackendFieldFor(fieldUI).None? || AllWhitespace(term)
    ensures q.Some? ==> SavedQueryHasChannelField(q.value)
  {
    match BackendFieldFor(fieldUI)
    case None => None
    case Some(field) =>
      if AllWhitespace(term) then None
      else
        BackendFieldForTagged(fieldUI);
        FragmentMentionsField(field, term, ChannelTags);
        Fragment(field, term)
  }

  /** A built query reads back as the field's token and the search pattern of the trimmed term. */
  lemma BuildChannelQueryReadsBack(fieldUI: string, term: string)
    requires BuildChannelQuery(fieldUI, term).Some? && '"' !in term
    ensures ParseFragment(BuildChannelQuery(fieldUI, term).value) ==
      Some((BackendFieldFor(fieldUI).value, Pattern(Trim(term))))
  {
    BackendFieldForTagged(fieldUI);
    FragmentRoundTrip(BackendFieldFor(fieldUI).value, term);
  }

  // ----- Reconciliation -----

  /** `new Set(keys.map(k => k.ChannelID))`. */
  function KeyChannelIds(keys: seq<KeyTriplet>): set<string> {
    set k | k in keys :: k.ChannelID
  }

  function HasIdIn(ids: set<string>): Channel -> bool {
    (c: Channel) => c.ChannelID in ids
  }

  /** The search results: the master rows whose ChannelID is among the returned keys'. */
  function Reconcile(data: seq<Channel>, keys: seq<KeyTriplet>): seq<Channel> {
    Filter(data, HasIdIn(KeyChannelIds(keys)))
  }

  /**
   * Reconciliation keeps exactly the master rows whose ChannelID some returned
   * key carries, each as often as in the master data, in master order; no keys
   * keep nothing.
   */
  lemma ReconcileKeepsKeyedRows(data: seq<Channel>, keys: seq<KeyTriplet>)
    ensures forall c :: c in Reconcile(data, keys) <==> c in data && exists k :: k in keys && k.ChannelID == c.ChannelID
    ensures forall c :: multiset(Reconcile(data, keys))[c] ==
                        if c.ChannelID in KeyChannelIds(keys) then multiset(data)[c] else 0
    ensures IsSubsequence(Reconcile(data, keys), data)
    ensures keys == [] ==> Reconcile(data, keys) == []
  {
    FilterSpec(data, HasIdIn(KeyChannelIds(keys)));
    if keys == [] {
      FilterNone(data, HasIdIn(KeyChannelIds(keys)));
    }
  }

  // ----- Sorting and export -----

  function SortKey(col: Column): Channel -> string {
    (c: Channel) => Lower(Cell(c, col))
  }

  /** The exported CSV text, or nothing when there is no row to export. */
  function CsvExport(rows: seq<Channel>): (csv: Option<string>)
    ensures csv.None? <==> rows == []
  {
    if rows == [] then None else Some(UnescapedDocument(Header, Map(rows, Cells)))
  }

  lemma HeaderIsPlain()
    ensures forall k :: 0 <= k < |Header| ==> ',' !in Header[k] && '\r' !in Header[k]
  {
  }

  /** Read back, the export gives the header and every row's cells, provided no cell holds a quote. */
  lemma CsvExportReadsBack(rows: seq<Channel>)
    requires rows != []
    requires forall i, k :: 0 <= i < |rows| && 0 <= k < |Cells(rows[i])| ==> '"' !in Cells(rows[i])[k]
    ensures ParseDocument(CsvExport(rows).value) == Some((Header, Map(rows, Cells)))
  {
    HeaderIsPlain();
    UnescapedDocumentRoundTrip(Header, Map(rows, Cells));
  }

  // ----- Messages -----

  const LoadFailedMessage := "Failed to load channels."
  const InvalidFieldMessage := "Please choose a valid channel attribute."
  const ChooseSavedMessage := "Please choose a saved search."
  const NotChannelQueryMessage :=
    "This saved search does not include channel attributes. Channel page only runs searches with channel fields."

  class ChannelComponent {
    var channelData: seq<Channel>
    var searchResults: seq<Channel>
    var filteredData: seq<Channel>
    var errorMessage: Option<string>
    var currentPage: int
    var totalPages: int
    var sortColumn: Option<Column>
    var sortAsc: bool
    const itemsPerPage: nat := 5

    /** The page shown always lies within the page count. */
    ghost predicate Valid()
      reads this
    {
      1 <= currentPage <= totalPages
    }

    constructor ()
      ensures Valid()
      ensures channelData == [] && searchResults == [] && filteredData == []
      ensures errorMessage == None && currentPage == 1 && totalPages == 1
      ensures sortColumn == None && sortAsc
    {
      channelData := [];
      searchResults := [];
      filteredData := [];
      errorMessage := None;
      currentPage := 1;
      totalPages := 1;
      sortColumn := None;
      sortAsc := true;
    }

    /** `updatePagination`: recount the pages and pull the current page back inside them. */
    method UpdatePagination()
      requires Valid()
      modifies this`totalPages, this`currentPage
      ensures Valid()
      ensures totalPages == TotalPages(|filteredData|, itemsPerPage)
      ensures currentPage == if old(currentPage) > totalPages then totalPages else old(currentPage)
    {
      totalPages := Max(1, CeilDiv(|filteredData|, itemsPerPage));
      if currentPage > totalPages {
        currentPage := totalPages;
      }
    }

    method SetPage(page: int)
      requires Valid()
      modifies this`currentPage
      ensures Valid()
      ensures currentPage == ClampPage(page, totalPages)
    {
      var total := Max(1, totalPages);
      currentPage := Min(Max(1, page), total);
    }

    /** `paginatedData`: the rows of the current page. */
    function PaginatedData(): (r: seq<Channel>)
      reads this
      ensures |r| <= itemsPerPage
      ensures currentPage >= 1 ==>
        r == filteredData[Min((currentPage - 1) * itemsPerPage, |filteredData|)..Min(currentPage * itemsPerPage, |filteredData|)]
    {
      PageShape(filteredData, currentPage, itemsPerPage);
      if currentPage >= 1 then PageOfPositive(filteredData, currentPage, itemsPerPage); Page(filteredData, currentPage, itemsPerPage)
      else Page(filteredData, currentPage, itemsPerPage)
    }

    /** `pageRange`: the page numbers 1..totalPages. */
    function PageNumbers(): (r: seq<int>)
      reads this
      ensures Valid() ==> |r| == totalPages
      ensures forall i :: 0 <= i < |r| ==> r[i] == i + 1
    {
      PageRange(totalPages)
    }

    /** The screen's `searchResults = []; filteredData = []; updatePagination()`. */
    method ClearResults()
      requires Valid()
      modifies this`searchResults, this`filteredData, this`currentPage, this`totalPages
      ensures Valid()
      ensures searchResults == [] && filteredData == [] && currentPage == 1 && totalPages == 1
    {
      searchResults := [];
      filteredData := [];
      UpdatePagination();
    }

    /** `sortBy`: toggle the direction on a repeated column, then sort the shown rows by the lower-cased cell. */
    method SortBy(column: Column)
      modifies this`sortColumn, this`sortAsc, this`filteredData
      ensures sortColumn == Some(column)
      ensures sortAsc == if old(sortColumn) == Some(column) then !old(sortAsc) else true
      ensures filteredData == Sorting.SortBy(old(filteredData), SortKey(column), sortAsc)
      ensures multiset(filteredData) == multiset(old(filteredData))
      ensures Sorting.SortedBy(filteredData, SortKey(column), sortAsc)
    {
      if sortColumn == Some(column) {
        sortAsc := !sortAsc;
      } else {
        sortColumn := Some(column);
        sortAsc := true;
      }
      Sorting.SortBySpec(filteredData, SortKey(column), sortAsc);
      filteredData := Sorting.SortBy(filteredData, SortKey(column), sortAsc);
    }

    /** `loadChannels`: normalise the rows and clear the results. */
    method LoadChannels(outcome: FetchOutcome)
      requires Valid()
      modifies this`channelData, this`searchResults, this`filteredData
      modifies this`totalPages, this`currentPage, this`errorMessage
      ensures Valid()
      ensures outcome.Fetched? ==>
        && channelData == Map(outcome.rows, ToChannel)
        && searchResults == [] && filteredData == [] && currentPage == 1 && totalPages == 1
        && errorMessage == old(errorMessage)
      ensures outcome.FetchFailed? ==>
        && errorMessage == Some(LoadFailedMessage)
        && channelData == old(channelData)
        && searchResults == old(searchResults) && filteredData == old(filteredData)
        && currentPage == old(currentPage) && totalPages == old(totalPages)
    {
      match outcome
      case FetchFailed(_) =>
        errorMessage := Some(LoadFailedMessage);
      case Fetched(rows) =>
        channelData := Map(rows, ToChannel);
        ClearResults();
    }

    /**
     * `runQueryAndFilterChannels`: issue the search; on keys the matching master
     * rows become the results and the shown rows, on page 1; on no keys or a
     * failure nothing is shown.
     */
    method RunQueryAndFilterChannels(q: string, outcome: SearchOutcome)
      returns (request: SearchRequest)
      requires Valid()
      modifies this`searchResults, this`filteredData, this`currentPage, this`totalPages, this`errorMessage
      ensures Valid()
      ensures request == SearchRequest(q, MasterSearchLimit, 0)
      ensures searchResults == if outcome.Found? then Reconcile(channelData, outcome.keys) else []
      ensures filteredData == searchResults
      ensures currentPage == 1 && totalPages == TotalPages(|filteredData|, itemsPerPage)
      ensures errorMessage == if outcome.SearchFailed? then Some(ErrorText(outcome.detail, SearchFailedMessage)) else old(errorMessage)
    {
      request := SearchRequest(q, MasterSearchLimit, 0);
      match outcome
      case SearchFailed(detail) =>
        errorMessage := Some(ErrorText(detail, SearchFailedMessage));
        ClearResults();
      case Found(keys) =>
        if |keys| == 0 {
          ReconcileKeepsKeyedRows(channelData, keys);
          ClearResults();
          return;
        }
        searchResults := Reconcile(channelData, keys);
        filteredData := searchResults;
        currentPage := 1;
        UpdatePagination();
    }

    /**
     * `performSearch`: a blank term clears the results; an unknown field sets an
     * error and clears them; otherwise the built query is run.
     */
    method PerformSearch(term: string, field: string, outcome: SearchOutcome)
      returns (request: Option<SearchRequest>)
      requires Valid()
      modifies this`searchResults, this`filteredData, this`currentPage, this`totalPages, this`errorMessage
      ensures Valid()
      ensures var q := BuildChannelQuery(if field == "" then "ChannelID" else field, term);
        && (request.Some? <==> !AllWhitespace(term) && q.Some?)
        && (request.Some? ==> request.value == SearchRequest(q.value, MasterSearchLimit, 0))
        && (errorMessage ==
              if AllWhitespace(term) then None
              else if q.None? then Some(InvalidFieldMessage)
              else if outcome.SearchFailed? then Some(ErrorText(outcome.detail, SearchFailedMessage))
              else None)
      ensures searchResults == if request.Some? && outcome.Found? then Reconcile(channelData, outcome.keys) else []
      ensures filteredData == searchResults
      ensures currentPage == 1 && totalPages == TotalPages(|filteredData|, itemsPerPage)
    {
      errorMessage := None;
      if AllWhitespace(term) {
        ClearResults();
        return None;
      }
      var q := BuildChannelQuery(if field == "" then "ChannelID" else field, term);
      if q.None? {
        errorMessage := Some(InvalidFieldMessage);
        ClearResults();
        return None;
      }
      var r := RunQueryAndFilterChannels(q.value, outcome);
      request := Some(r);
    }

    /**
     * `loadFromSaved`: an index out of range only sets an error; a saved query
     * without a channel tag sets an error and clears the results; otherwise the
     * saved query is run.
     */
    method LoadFromSaved(saved: seq<SavedSearch>, idx: int, outcome: SearchOutcome)
      returns (request: Option<SearchRequest>)
      requires Valid()
      modifies this`searchResults, this`filteredData, this`currentPage, this`totalPages, this`errorMessage
      ensures Valid()
      ensures (idx < 0 || idx >= |saved|) ==>
        && request.None? && errorMessage == Some(ChooseSavedMessage)
        && searchResults == old(searchResults) && filteredData == old(filteredData)
        && currentPage == old(currentPage) && totalPages == old(totalPages)
      ensures 0 <= idx < |saved| && !SavedQueryHasChannelField(saved[idx].query) ==>
        && request.None? && errorMessage == Some(NotChannelQueryMessage)
        && searchResults == [] && filteredData == [] && currentPage == 1 && totalPages == 1
      ensures 0 <= idx < |saved| && SavedQueryHasChannelField(saved[idx].query) ==>
        && request == Some(SearchRequest(saved[idx].query, MasterSearchLimit, 0))
        && searchResults == (if outcome.Found? then Reconcile(channelData, outcome.keys) else [])
        && filteredData == searchResults
        && currentPage == 1 && totalPages == TotalPages(|filteredData|, itemsPerPage)
        && errorMessage == (if outcome.SearchFailed? then Some(ErrorText(outcome.detail, SearchFailedMessage)) else None)
    {
      errorMessage := None;
      var q := SelectedQuery(saved, idx);
      if q.None? {
        errorMessage := Some(ChooseSavedMessage);
        return None;
      }
      if !SavedQueryHasChannelField(q.value) {
        errorMessage := Some(NotChannelQueryMessage);
        ClearResults();
        return None;
      }
      var r := RunQueryAndFilterChannels(q.value, outcome);
      request := Some(r);
    }
  }
}
