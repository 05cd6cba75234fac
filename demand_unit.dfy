/**
 * The demand-unit screen: a tab-separated file of demand units is read once,
 * nothing is shown until the three ID filters are applied, and the shown rows
 * are sorted, paged (without clamping) and exported.
 */
module DemandUnitScreen {
  import opened Wrappers
  import opened Text
  import opened Seqs
  import Sorting
  import opened Paging
  import opened Csv
  import opened Backend
  import opened KeyFilters

  /**
   * A demand unit as the loader builds it. A line always has a first column;
   * the second and third are absent (`undefined`) when the line has fewer tabs.
   */
  datatype DemandUnit = DemandUnit(ProductID: string, ChannelID: Option<string>, LocationID: Option<string>)

  datatype Column = ProductID | ChannelID | LocationID

  function Cell(u: DemandUnit, col: Column): Option<string> {
    match col
    case ProductID => Some(u.ProductID)
    case ChannelID => u.ChannelID
    case LocationID => u.LocationID
  }

  // ----- Loading -----

  /** `cols[i]`: the column, or nothing past the end. */
  function ColumnAt(cols: seq<string>, i: nat): (r: Option<string>)
    ensures r.Some? <==> i < |cols|
  {
    if i < |cols| then Some(cols[i]) else None
  }

  /** One line split on tabs, columns 0, 1 and 2 as the three IDs. */
  function ParseLine(line: string): DemandUnit {
    var cols := Split(line, '\t');
    DemandUnit(cols[0], ColumnAt(cols, 1), ColumnAt(cols, 2))
  }

  function IsNonEmpty(line: string): bool { line != [] }

  /** The lines after the first, trimmed, with the empty ones dropped. */
  function DataLines(data: string): seq<string> {
    Filter(Map(Split(data, '\n')[1..], Trim), IsNonEmpty)
  }

  /** The rows `loadCSV` builds from the file's text. */
  function ParseUnits(data: string): seq<DemandUnit> {
    Map(DataLines(data), ParseLine)
  }

  /** A line made of tab-free columns reads back as its first three columns, absent ones as absent. */
  lemma ParseLineReadsColumns(cols: seq<string>)
    requires |cols| >= 1
    requires forall k :: 0 <= k < |cols| ==> '\t' !in cols[k]
    ensures ParseLine(Join(cols, "\t")) == DemandUnit(cols[0], ColumnAt(cols, 1), ColumnAt(cols, 2))
  {
    SplitJoin(cols, '\t');
  }

  /** Every kept line is non-empty and trimmed. */
  lemma DataLinesAreTrimmed(data: string)
    ensures forall line :: line in DataLines(data) ==> line != [] && IsTrimmed(line)
  {
    var trimmed := Map(Split(data, '\n')[1..], Trim);
    FilterSpec(trimmed, IsNonEmpty);
    assert forall line :: line in trimmed ==> IsTrimmed(line);
  }

  /** Every loaded row has a product ID: a kept line starts with a character that is no tab. */
  lemma ParsedUnitsHaveProductId(data: string)
    ensures forall u :: u in ParseUnits(data) ==> u.ProductID != []
  {
    var lines := DataLines(data);
    DataLinesAreTrimmed(data);
    forall i | 0 <= i < |lines|
      ensures ParseUnits(data)[i].ProductID != []
    {
      assert lines[i] in lines;
      FirstPieceNonEmpty(lines[i], '\t');
    }
  }

  /** The first piece of a split is non-empty when the text does not start with the separator. */
  lemma FirstPieceNonEmpty(s: string, sep: char)
    requires s != [] && s[0] != sep
    ensures Split(s, sep)[0] != []
  {
  }

  /** The line a unit is stored as: the IDs joined by tabs, an absent column as an empty one. */
  function UnitLine(u: DemandUnit): string {
    Join([u.ProductID, ColumnText(u.ChannelID), ColumnText(u.LocationID)], "\t")
  }

  function ColumnText(v: Option<string>): string {
    match v case None => "" case Some(s) => s
  }

  /**
   * A unit that survives the file format: all three columns present, no tab or
   * line break inside an ID, and nothing the line trim would cut at either end.
   */
  predicate Writable(u: DemandUnit) {
    && u.ChannelID.Some? && u.LocationID.Some?
    && u.ProductID != [] && !IsWhitespace(u.ProductID[0])
    && u.LocationID.value != [] && !IsWhitespace(u.LocationID.value[|u.LocationID.value| - 1])
    && '\t' !in u.ProductID && '\t' !in u.ChannelID.value && '\t' !in u.LocationID.value
    && '\n' !in u.ProductID && '\n' !in u.ChannelID.value && '\n' !in u.LocationID.value
  }

  /** The file a list of writable units is stored as: a header line, then one line per unit. */
  function UnitsText(header: string, units: seq<DemandUnit>): string {
    Join([header] + Map(units, UnitLine), "\n")
  }

  /** A written unit's line is trimmed, non-empty and free of line breaks, and reads back as the unit. */
  lemma UnitLineReadsBack(u: DemandUnit)
    requires Writable(u)
    ensures UnitLine(u) != [] && IsTrimmed(UnitLine(u)) && '\n' !in UnitLine(u)
    ensures ParseLine(UnitLine(u)) == u
  {
    var p, c, l := u.ProductID, u.ChannelID.value, u.LocationID.value;
    var line := UnitLine(u);
    assert [p, c, l][1..] == [c, l];
    assert [c, l][1..] == [l];
    assert Join([c, l], "\t") == c + "\t" + l;
    assert line == p + "\t" + (c + "\t" + l);
    assert line[0] == p[0];
    assert line[|line| - 1] == l[|l| - 1];
    JoinAvoids([p, c, l], "\t", '\n');
    ParseLineReadsColumns([p, c, l]);
  }

  /** Loading the stored file of writable units gives back exactly those units, whatever the header line. */
  lemma LoadRoundTrip(header: string, units: seq<DemandUnit>)
    requires '\n' !in header
    requires forall u :: u in units ==> Writable(u)
    ensures ParseUnits(UnitsText(header, units)) == units
  {
    var lines := Map(units, UnitLine);
    var pieces := [header] + lines;
    forall k | 0 <= k < |units|
      ensures lines[k] != [] && IsTrimmed(lines[k]) && '\n' !in lines[k] && ParseLine(lines[k]) == units[k]
    {
      assert units[k] in units;
      UnitLineReadsBack(units[k]);
    }
    assert forall k :: 0 <= k < |pieces| ==> '\n' !in pieces[k] by {
      forall k | 0 <= k < |pieces|
        ensures '\n' !in pieces[k]
      {
        if k > 0 {
          assert pieces[k] == lines[k - 1];
        }
      }
    }
    SplitJoin(pieces, '\n');
    assert Split(UnitsText(header, units), '\n')[1..] == lines;
    var trimmed := Map(lines, Trim);
    forall k | 0 <= k < |lines|
      ensures trimmed[k] == lines[k]
    {
      TrimOfTrimmed(lines[k]);
    }
    assert trimmed == lines;
    FilterAll(lines, IsNonEmpty);
    assert DataLines(UnitsText(header, units)) == lines;
  }

  // ----- Filters -----

  /**
   * `applyFilters`' test of one unit against the three needles, in the order
   * JavaScript evaluates it: `Some(keep)`, or nothing when the test reads a
   * column the unit lacks (the `TypeError` of `undefined.toLowerCase()`).
   */
  function Judge(u: DemandUnit, prod: string, chan: string, loc: string): (r: Option<bool>)
    ensures r.None? ==> (chan != [] && u.ChannelID.None?) || (loc != [] && u.LocationID.None?)
  {
    if prod == [] && chan == [] && loc == [] then Some(true)
    else if !(prod == [] || Contains(Lower(u.ProductID), prod)) then Some(false)
    else if chan != [] && u.ChannelID.None? then None
    else if !(chan == [] || Contains(Lower(u.ChannelID.value), chan)) then Some(false)
    else if loc != [] && u.LocationID.None? then None
    else Some(loc == [] || Contains(Lower(u.LocationID.value), loc))
  }

  function Keeps(prod: string, chan: string, loc: string): DemandUnit -> bool {
    (u: DemandUnit) => Judge(u, prod, chan, loc) == Some(true)
  }

  /** `demandUnits.filter(...)`: the kept rows in order, or nothing when the test throws on some row. */
  function FilterOrThrow(units: seq<DemandUnit>, prod: string, chan: string, loc: string): Option<seq<DemandUnit>>
    decreases |units|
  {
    if units == [] then Some([])
    else match Judge(units[0], prod, chan, loc)
      case None => None
      case Some(keep) =>
        match FilterOrThrow(units[1..], prod, chan, loc)
        case None => None
        case Some(rest) => Some(if keep then [units[0]] + rest else rest)
  }

  /**
   * The filter throws exactly when the test throws on some row; otherwise it keeps
   * the rows the test accepts, in order, and with blank needles it keeps them all.
   */
  lemma {:induction false} FilterOrThrowSpec(units: seq<DemandUnit>, prod: string, chan: string, loc: string)
    ensures FilterOrThrow(units, prod, chan, loc).None? <==>
      exists i :: 0 <= i < |units| && Judge(units[i], prod, chan, loc).None?
    ensures FilterOrThrow(units, prod, chan, loc).Some? ==>
      FilterOrThrow(units, prod, chan, loc).value == Filter(units, Keeps(prod, chan, loc))
    ensures prod == [] && chan == [] && loc == [] ==> FilterOrThrow(units, prod, chan, loc) == Some(units)
    decreases |units|
  {
    if units != [] {
      FilterOrThrowSpec(units[1..], prod, chan, loc);
      if Judge(units[0], prod, chan, loc).None? {
        assert 0 < |units|;
      } else if exists i :: 0 <= i < |units[1..]| && Judge(units[1..][i], prod, chan, loc).None? {
        var i :| 0 <= i < |units[1..]| && Judge(units[1..][i], prod, chan, loc).None?;
        assert Judge(units[i + 1], prod, chan, loc).None?;
      } else {
        forall i | 0 <= i < |units|
          ensures Judge(units[i], prod, chan, loc).Some?
        {
          if i > 0 {
            assert units[i] == units[1..][i - 1];
          }
        }
        if prod == [] && chan == [] && loc == [] {
          assert units == [units[0]] + units[1..];
        }
      }
    }
  }

  /** The filter for the three inputs, each made into its needle. */
  function FilterForInputs(units: seq<DemandUnit>, prodInput: string, chanInput: string, locInput: string): Option<seq<DemandUnit>> {
    FilterOrThrow(units, Needle(prodInput), Needle(chanInput), Needle(locInput))
  }

  /** The key triple of a unit whose columns are all present. */
  function FullKey(u: DemandUnit): KeyTriplet {
    KeyTriplet(u.ProductID, CellText(u.ChannelID), CellText(u.LocationID))
  }

  /**
   * On rows with all three columns the filter never throws and keeps exactly
   * what the history screen's ID filters keep.
   */
  lemma FullRowsFilterLikeKeys(units: seq<DemandUnit>, prodInput: string, chanInput: string, locInput: string)
    requires forall u :: u in units ==> u.ChannelID.Some? && u.LocationID.Some?
    ensures FilterForInputs(units, prodInput, chanInput, locInput) ==
      Some(KeyFilter(units, FullKey, prodInput, chanInput, locInput))
  {
    var p, c, l := Needle(prodInput), Needle(chanInput), Needle(locInput);
    var keep := Keeps(p, c, l);
    var rm := RowMatches(FullKey, prodInput, chanInput, locInput);
    forall u | u in units
      ensures Judge(u, p, c, l) == Some(rm(u))
    {
      JudgeFullRow(u, p, c, l);
      assert FullKey(u) == KeyTriplet(u.ProductID, u.ChannelID.value, u.LocationID.value);
      assert rm(u) == KeysMatch(u.ProductID, u.ChannelID.value, u.LocationID.value, p, c, l);
    }
    FilterOrThrowSpec(units, p, c, l);
    assert forall i :: 0 <= i < |units| ==> Judge(units[i], p, c, l).Some? by {
      forall i | 0 <= i < |units|
        ensures Judge(units[i], p, c, l).Some?
      {
        assert units[i] in units;
      }
    }
    FilterSameOnRows(units, keep, rm);
  }

  /** On a row with all three columns the test does not throw and is the AND of the three ID tests. */
  lemma JudgeFullRow(u: DemandUnit, prod: string, chan: string, loc: string)
    requires u.ChannelID.Some? && u.LocationID.Some?
    ensures Judge(u, prod, chan, loc) == Some(KeysMatch(u.ProductID, u.ChannelID.value, u.LocationID.value, prod, chan, loc))
  {
  }

  /** Two tests that agree on every row filter alike. */
  lemma {:induction false} FilterSameOnRows(units: seq<DemandUnit>, a: DemandUnit -> bool, b: DemandUnit -> bool)
    requires forall u :: u in units ==> a(u) == b(u)
    ensures Filter(units, a) == Filter(units, b)
    decreases |units|
  {
    if units != [] {
      assert units[0] in units;
      assert forall u :: u in units[1..] ==> u in units;
      FilterSameOnRows(units[1..], a, b);
    }
  }

  /** Some rows with a missing column make a non-blank channel filter throw. */
  lemma MissingChannelThrows(id: string, chanInput: string)
    requires !AllWhitespace(chanInput)
    ensures FilterOrThrow([DemandUnit(id, None, None)], "", Needle(chanInput), "").None?
  {
  }

  // ----- Sorting and export -----

  /** `a[column]?.toLowerCase() ?? ''`. */
  function SortKey(col: Column): DemandUnit -> string {
    (u: DemandUnit) => match Cell(u, col) case None => "" case Some(v) => Lower(v)
  }

  const Header: seq<string> := ["ProductID", "ChannelID", "LocationID"]

  /** `${v}`: an absent column is written as `undefined`. */
  function CellText(v: Option<string>): string {
    match v case None => "undefined" case Some(s) => s
  }

  function Cells(u: DemandUnit): seq<string> {
    [u.ProductID, CellText(u.ChannelID), CellText(u.LocationID)]
  }

  /** The exported CSV text, or nothing when no row is shown. */
  function CsvExport(rows: seq<DemandUnit>): (csv: Option<string>)
    ensures csv.None? <==> rows == []
  {
    if rows == [] then None else Some(UnescapedDocument(Header, Map(rows, Cells)))
  }

  lemma HeaderIsPlain()
    ensures forall k :: 0 <= k < |Header| ==> ',' !in Header[k] && '\r' !in Header[k]
  {
  }

  /** Read back, the export gives the header and every shown row's cells, provided no ID holds a quote. */
  lemma CsvExportReadsBack(rows: seq<DemandUnit>)
    requires rows != []
    requires forall i, k :: 0 <= i < |rows| && 0 <= k < |Cells(rows[i])| ==> '"' !in Cells(rows[i])[k]
    ensures ParseDocument(CsvExport(rows).value) == Some((Header, Map(rows, Cells)))
  {
    HeaderIsPlain();
    UnescapedDocumentRoundTrip(Header, Map(rows, Cells));
  }

  class DemandUnitComponent {
    var demandUnits: seq<DemandUnit>
    var filteredUnits: seq<DemandUnit>
    var productSearch: string
    var channelSearch: string
    var locationSearch: string
    /** Any number: `setPage` does not clamp. */
    var currentPage: int
    /** `Math.ceil(n / 5)`, which is 0 for no rows. */
    var totalPages: int
    var sortColumn: Option<Column>
    var sortAsc: bool
    const itemsPerPage: nat := 5

    constructor ()
      ensures demandUnits == [] && filteredUnits == []
      ensures productSearch == "" && channelSearch == "" && locationSearch == ""
      ensures currentPage == 1 && totalPages == 1
      ensures sortColumn == None && sortAsc
    {
      demandUnits := [];
      filteredUnits := [];
      productSearch := "";
      channelSearch := "";
      locationSearch := "";
      currentPage := 1;
      totalPages := 1;
      sortColumn := None;
      sortAsc := true;
    }

    /** `updatePagination`: the page count, with no lower bound and no clamping of the current page. */
    method UpdatePagination()
      modifies this`totalPages
      ensures totalPages == CeilDiv(|filteredUnits|, itemsPerPage)
      ensures totalPages == 0 <==> filteredUnits == []
      ensures totalPages * itemsPerPage >= |filteredUnits| > (totalPages - 1) * itemsPerPage
    {
      totalPages := CeilDiv(|filteredUnits|, itemsPerPage);
    }

    /** `setPage`: any number is taken as it is. */
    method SetPage(page: int)
      modifies this`currentPage
      ensures currentPage == page
    {
      currentPage := page;
    }

    /** `paginatedData`: the `slice` for the current page, whatever number it is. */
    function PaginatedData(): (r: seq<DemandUnit>)
      reads this
      ensures |r| <= itemsPerPage
      ensures forall u :: u in r ==> u in filteredUnits
      ensures currentPage >= 1 ==>
        r == filteredUnits[Min((currentPage - 1) * itemsPerPage, |filteredUnits|)..Min(currentPage * itemsPerPage, |filteredUnits|)]
    {
      PageShape(filteredUnits, currentPage, itemsPerPage);
      if currentPage >= 1 then PageOfPositive(filteredUnits, currentPage, itemsPerPage); Page(filteredUnits, currentPage, itemsPerPage)
      else Page(filteredUnits, currentPage, itemsPerPage)
    }

    function PageNumbers(): (r: seq<int>)
      reads this
      ensures |r| == Max(0, totalPages)
      ensures forall i :: 0 <= i < |r| ==> r[i] == i + 1
    {
      PageRange(totalPages)
    }

    /** `loadCSV`'s handler: store the parsed rows and show none of them until filters are applied. */
    method LoadCsv(data: string)
      modifies this`demandUnits, this`filteredUnits, this`totalPages
      ensures demandUnits == ParseUnits(data)
      ensures filteredUnits == [] && totalPages == 0
    {
      demandUnits := ParseUnits(data);
      filteredUnits := [];
      UpdatePagination();
    }

    /**
     * `applyFilters`: keep the rows the three needles accept and go to page 1.
     * When the test throws on some row nothing is assigned and `thrown` is set.
     */
    method ApplyFilters() returns (thrown: bool)
      modifies this`filteredUnits, this`currentPage, this`totalPages
      ensures var r := FilterForInputs(demandUnits, productSearch, channelSearch, locationSearch);
        && (thrown <==> r.None?)
        && (thrown ==> filteredUnits == old(filteredUnits) && currentPage == old(currentPage) && totalPages == old(totalPages))
        && (!thrown ==> filteredUnits == r.value && currentPage == 1 && totalPages == CeilDiv(|filteredUnits|, itemsPerPage))
    {
      var r := FilterForInputs(demandUnits, productSearch, channelSearch, locationSearch);
      if r.None? {
        return true;
      }
      filteredUnits := r.value;
      currentPage := 1;
      UpdatePagination();
      thrown := false;
    }

    /**
     * `clearAllFilters`: blank the three inputs one after the other; each change
     * re-applies the filters (a throw there is reported and changes nothing), and
     * the last one, with every filter blank, shows every row.
     */
    method ClearAllFilters()
      modifies this`productSearch, this`channelSearch, this`locationSearch
      modifies this`filteredUnits, this`currentPage, this`totalPages
      ensures productSearch == "" && channelSearch == "" && locationSearch == ""
      ensures filteredUnits == demandUnits
      ensures currentPage == 1 && totalPages == CeilDiv(|demandUnits|, itemsPerPage)
    {
      productSearch := "";
      var _ := ApplyFilters();
      channelSearch := "";
      var _ := ApplyFilters();
      locationSearch := "";
      FilterOrThrowSpec(demandUnits, Needle(productSearch), Needle(channelSearch), Needle(locationSearch));
      var thrown := ApplyFilters();
    }

    /** `sortBy`: toggle the direction on a repeated column, then sort the shown rows by the lower-cased cell. */
    method SortBy(column: Column)
      modifies this`sortColumn, this`sortAsc, this`filteredUnits
      ensures sortColumn == Some(column)
      ensures sortAsc == if old(sortColumn) == Some(column) then !old(sortAsc) else true
      ensures filteredUnits == Sorting.SortBy(old(filteredUnits), SortKey(column), sortAsc)
      ensures multiset(filteredUnits) == multiset(old(filteredUnits))
      ensures Sorting.SortedBy(filteredUnits, SortKey(column), sortAsc)
    {
      if sortColumn == Some(column) {
        sortAsc := !sortAsc;
      } else {
        sortColumn := Some(column);
        sortAsc := true;
      }
      Sorting.SortBySpec(filteredUnits, SortKey(column), sortAsc);
      filteredUnits := Sorting.SortBy(filteredUnits, SortKey(column), sortAsc);
    }
  }
}
