# Query composition and result reconciliation for the planning UI's data screens

This project is a Dafny model of the logic behind eight screens of an Angular planning UI:

- three master-data screens: product, channel, location;
- three series screens: history, forecast, forecast-element;
- the demand-unit screen;
- the saved-search builder.

Each screen turns what the user types into a backend search query. It resolves that query to product/channel/location key triples, and then reconciles the keys with rows:

- it either filters the loaded master rows by ID;
- or it fetches series rows for the keys;
- or it shows the keys themselves.

The screens then filter, sort, page and export those rows locally. The copies differ slightly from screen to screen, and each screen is modelled with its own rules:

- only the location screen escapes quotes in its CSV;
- the demand-unit screen neither clamps pages nor keeps a page count of at least one;
- the forecast screen computes its pager window differently;
- the search builder quotes on `:` and `"` and escapes with a backslash.

Layout:

- The shared JavaScript behaviour sits in small pure modules:
  - `Text`: `trim` with JavaScript's `\s` set, ASCII `toLowerCase`, `includes`, `join`, `split`;
  - `Seqs`: `filter`, `map`, and `Set` insertion order;
  - `Sorting`: a stable sort by a string key, in either direction;
  - `Paging`: page counts, clamping, `slice`, and the 5-page pager window;
  - `QueryFragments`: the `field:*value*` fragment and the saved-query tag check;
  - `Csv`: quoted CSV lines and a reader for them;
  - `Backend`: key triples, request records and outcomes;
  - `KeyFilters`: the ID substring filters.
- Each screen is a module with a `class` whose fields are the component's fields. Its handlers are methods with `modifies` frames, and each method's `ensures` states the new state through the module's specification functions. The properties the source promises are proved as lemmas about those functions.

Backend calls are not made. The outcome of a search (`Found(keys)` or `SearchFailed(detail)`), of a bulk fetch and of a save is a parameter of the handler that awaits it. The request the handler would send is returned as a value (`SearchRequest(q, limit, offset)` or `BulkRequest(kind, bucket, keys)`). A backend row is a `map<string, string>`, and an absent key stands for `null`/`undefined`.

The modelled behaviour and its divergences from an idealised reading:

- **The series screens clear before they search.** History, forecast and forecast-element empty their rows and go to page 1 before awaiting the search. A failed request therefore leaves an empty table, and the page count is left as it was before the run: `RunQueryAndLoadHistory` and `RunQueryAndLoadForecast` state `totalPages == old(totalPages)` on failure.
- **Six screens do not escape CSV quotes.** Product, channel, history, forecast, forecast-element and demand-unit write `"${v}"`. Their `CsvExportReadsBack` lemmas need cells free of `"`. `Csv.UnescapedQuoteBreaksReading` shows the one-cell document `x"y` that does not read back. Location doubles quotes (quoting in the style of section 2 of RFC 4180), and its export reads back whatever the cells hold.
- **Demand-unit rows may lack columns.** `cols[1]`/`cols[2]` may be `undefined`, so `ChannelID` and `LocationID` are `Option<string>`. `applyFilters` then throws a `TypeError` when a non-blank channel or location filter reaches such a row, and it assigns nothing. `DemandUnitComponent.ApplyFilters` returns that as `thrown`. `clearAllFilters` fires three reactive handlers; a throw in one of them is reported by the subscriber and does not stop the next one, and after the last one every filter is blank. The CSV export writes an absent column as `undefined`, and the sort compares it as `''`.
- **The search builder's quoting cannot always be inverted.** `quoteIfNeeded` escapes `"` as `\"` but leaves a backslash alone. A quoted value that ends in a backslash therefore writes `\"` where its closing quote should be. `SearchScreen.TrailingBackslashBreaksReading` exhibits the query `k:" \"`. `SearchScreen.ReadQuery` is a reference reader for the query language used only to state the round trip. It is not the backend's parser, which is not part of this model.
- **Collation and case.** `localeCompare` is modelled as lexicographic order on characters, and `toLowerCase` as ASCII lower-casing. The product lists' default `sort()` compares UTF-16 code units; characters are modelled as single code units.
- **`String(v)`** of a backend value is modelled for string values only: a row field is a string, or absent.
- The search builder's `(c.op ?? 'AND')` default never applies in the model, because every criterion is created with an operator; `SearchScreen.OpText` writes the operator upper-cased.
- The registry field `label` is named `caption`; `label` is a Dafny keyword.

## Model

| member | source | states |
|---|---|---|
| Text.Trim | src/app/views/data/product/product.component.ts:158 | `trim` leaves a value with no whitespace at either end, empty exactly when the input is blank |
| Text.TrimIsSlice | src/app/views/data/product/product.component.ts:158 | the trimmed value is the slice of the input between a blank head and a blank tail |
| Text.TrimStartSpec | src/app/views/data/product/product.component.ts:158 | the part kept by the leading trim is a suffix after a blank head and starts with no whitespace |
| Text.TrimEndSpec | src/app/views/data/product/product.component.ts:158 | the part kept by the trailing trim is a prefix before a blank tail and ends with no whitespace |
| Text.TrimKeepsChars | src/app/views/data/product/product.component.ts:158 | every character of the trimmed value is a character of the input |
| Text.TrimOfTrimmed | src/app/views/data/product/product.component.ts:158 | trimming an already trimmed value changes nothing |
| Text.TrimIsPart | src/app/views/data/product/product.component.ts:158 | the trimmed value occurs in the input |
| Text.Lower | src/app/views/data/product/product.component.ts:119 | lower-casing keeps the length and lower-cases character by character |
| Text.LowerIdempotent | src/app/views/data/product/product.component.ts:119 | lower-casing twice equals lower-casing once, and gives a lower-case string |
| Text.LowerAppend | src/app/views/data/product/product.component.ts:119 | lower-casing distributes over concatenation |
| Text.LowerOfLowerCase | src/app/views/data/product/product.component.ts:119 | a lower-case string is its own lower-casing |
| Text.LowerContains | src/app/views/data/history/history.component.ts:193-195 | a substring stays a substring after both sides are lower-cased |
| Text.ContainsWithin | src/app/views/data/history/history.component.ts:193-195 | a substring of a part is a substring of the whole |
| Text.ContainsPrefix | src/app/views/data/history/history.component.ts:193-195 | a string contains each of its prefixes |
| Text.JoinAvoids | src/app/views/data/product/product.component.ts:229-230 | a character in no part and not in the separator is not in the joined string |
| Text.JoinHasPart | src/app/views/data/forecast-element/forecast-element.component.ts:94 | every part occurs in the joined string |
| Text.JoinContains | src/app/views/data/forecast-element/forecast-element.component.ts:94 | a substring of a part is a substring of the joined string |
| Text.IndexOf | src/app/views/data/product/product.component.ts:162 | the index found holds the character and none comes before it; none found means it does not occur |
| Text.Split | src/app/views/data/demand-unit/demand-unit.component.ts:56 | `split` gives at least one piece, no piece holds the separator, and joining the pieces gives the text back |
| Text.SplitJoin | src/app/views/data/demand-unit/demand-unit.component.ts:61 | splitting a join of separator-free pieces gives the pieces back |
| Seqs.Filter | src/app/views/data/product/product.component.ts:197 | `filter` never lengthens the sequence |
| Seqs.FilterSpec | src/app/views/data/product/product.component.ts:197 | `filter` keeps exactly the elements satisfying the test, each as often as it occurs, in their order |
| Seqs.FilterAll | src/app/views/data/history/history.component.ts:192-196 | a test that holds everywhere keeps the sequence as it is |
| Seqs.FilterNone | src/app/views/data/product/product.component.ts:191-194 | a test that never holds keeps nothing |
| Seqs.Map | src/app/views/data/product/product.component.ts:87-95 | `map` keeps the length and applies the function at every index |
| Seqs.Distinct | src/app/views/search/search.component.ts:101-106 | the `Set` insertion order holds at most as many elements as were added |
| Seqs.DistinctSpec | src/app/views/data/product/product.component.ts:96-97 | the `Set` holds every added element once and nothing else |
| Seqs.NoDuplicatesCounts | src/app/views/data/product/product.component.ts:96-97 | without duplicates every element occurs at most once |
| Seqs.CountsNoDuplicates | src/app/views/data/product/product.component.ts:96-97 | every element occurring at most once means no duplicates |
| Seqs.PermutationKeepsNoDuplicates | src/app/views/data/product/product.component.ts:96-97 | sorting a duplicate-free list keeps it duplicate-free |
| Sorting.LexLeTotal | src/app/views/data/product/product.component.ts:249 | any two strings compare one way or the other |
| Sorting.LexLeTrans | src/app/views/data/product/product.component.ts:249 | the string order is transitive |
| Sorting.LexLeAntisymmetric | src/app/views/data/product/product.component.ts:249 | strings ordered both ways are equal |
| Sorting.BeforeTotal | src/app/views/data/product/product.component.ts:249 | in either direction, any two keys can be placed one before the other |
| Sorting.BeforeTrans | src/app/views/data/product/product.component.ts:249 | the directed order is transitive |
| Sorting.Insert | src/app/views/data/product/product.component.ts:246-250 | insertion adds one element |
| Sorting.InsertSpec | src/app/views/data/product/product.component.ts:246-250 | inserting into a sorted sequence adds exactly the element and keeps it sorted |
| Sorting.InsertStable | src/app/views/data/product/product.component.ts:246-250 | insertion puts the new element first among those with its key |
| Sorting.SortBy | src/app/views/data/product/product.component.ts:246-250 | sorting keeps the length |
| Sorting.SortBySpec | src/app/views/data/product/product.component.ts:246-250 | the sorted sequence is a permutation of the input, ordered by the key in the chosen direction |
| Sorting.SortByStable | src/app/views/data/product/product.component.ts:246-250 | elements with equal keys keep their input order (`Array.prototype.sort` is stable) |
| Paging.CeilDiv | src/app/views/data/demand-unit/demand-unit.component.ts:135 | `Math.ceil(n / per)` is the fewest pages of `per` rows that hold `n` rows |
| Paging.TotalPages | src/app/views/data/product/product.component.ts:254 | the page count is at least 1, holds every row, and no page beyond the first is empty |
| Paging.ClampPage | src/app/views/data/product/product.component.ts:263-266 | the page is put into `[1, max(1, total)]`, and one already inside is kept |
| Paging.SliceIndex | src/app/views/data/demand-unit/demand-unit.component.ts:139-140 | `slice` resolves a negative index from the end and clamps into the length |
| Paging.PageOfPositive | src/app/views/data/product/product.component.ts:258-261 | page `p` from 1 on is the run of at most `per` rows after the first `p - 1` pages |
| Paging.PageShape | src/app/views/data/demand-unit/demand-unit.component.ts:138-141 | whatever the page number, a page holds at most `per` rows, all of them shown rows |
| Paging.PagesUpToPrefix | src/app/views/data/product/product.component.ts:258-261 | the first `k` pages, read one after the other, are the first `k * per` rows |
| Paging.PagesTile | src/app/views/data/product/product.component.ts:253-261 | pages 1 to the page count, read one after the other, give back every shown row |
| Paging.PageRange | src/app/views/data/product/product.component.ts:268-270 | `pageRange` is 1..n, and empty for n below 1 |
| Paging.PagerWindowShape | src/app/views/data/history/history.component.ts:209-225 | the pager shows min(total, 5) consecutive pages inside `[1, total]` that include the clamped current page |
| Paging.CentredPages | src/app/views/data/history/history.component.ts:209-225 | the centred window computation gives the pager window |
| Paging.ForecastPages | src/app/views/data/forecast/forecast.component.ts:253-269 | the forecast screen's variant (end `start + 4`, start kept at least 1) gives the same pager window |
| QueryFragments.Pattern | src/app/views/data/product/product.component.ts:160 | the pattern always has a wildcard, contains the value, and has whitespace exactly when the value has |
| QueryFragments.QuoteIfSpaced | src/app/views/data/product/product.component.ts:161 | a pattern with whitespace is wrapped in double quotes, any other is kept |
| QueryFragments.Fragment | src/app/views/data/product/product.component.ts:158-162 | no fragment exactly for a blank term; otherwise it starts with `field:` |
| QueryFragments.ParseFragment | src/app/views/data/product/product.component.ts:162 | the field read from a fragment has no `:` |
| QueryFragments.ParseAfterField | src/app/views/data/product/product.component.ts:162 | `field:rest` reads as the field and the unquoted rest when the field has no `:` |
| QueryFragments.UnquoteQuoteIfSpaced | src/app/views/data/product/product.component.ts:161 | quoting a quote-free pattern is undone by unquoting |
| QueryFragments.TrimmedNoChar | src/app/views/data/product/product.component.ts:158 | trimming adds no character |
| QueryFragments.FragmentRoundTrip | src/app/views/data/product/product.component.ts:155-163 | a fragment reads back as its field and the pattern of the trimmed term |
| QueryFragments.MentionsAnyIff | src/app/views/data/product/product.component.ts:118-122 | the tag check holds exactly when the lower-cased query contains some tag |
| QueryFragments.QueryWithFragmentMentions | src/app/views/data/product/product.component.ts:118-122 | a query containing a lower-case field's fragment passes the check for that field's tag |
| QueryFragments.FragmentMentionsField | src/app/views/data/product/product.component.ts:118-122 | a fragment passes the check for its own field's tag |
| QueryFragments.Lookup | src/app/views/data/product/product.component.ts:143-152 | a `switch` on strings yields the value of the first case with that label, or nothing exactly when no case matches |
| QueryFragments.LookupFindsCase | src/app/views/data/product/product.component.ts:143-152 | every case label is matched |
| Backend.ErrorText | src/app/views/data/product/product.component.ts:201 | the error's detail when there is one, otherwise the screen's fallback text |
| Backend.SelectedQuery | src/app/views/data/history/history.component.ts:104-112 | a saved query is selected exactly when the index is in range, and it is that entry's query |
| Backend.BucketSlug | src/app/views/data/history/history.component.ts:125-128 | `Weekly` gives `weekly`, `Monthly` gives `monthly`, anything else `daily` |
| Backend.BucketSlugIsLowerCasePeriod | src/app/views/data/forecast/forecast.component.ts:118-121 | for the three offered periods the bucket is the period lower-cased |
| KeyFilters.Needle | src/app/views/data/history/history.component.ts:188-190 | the needle is lower-case, and empty exactly when the input is blank |
| KeyFilters.NeedleMatches | src/app/views/data/history/history.component.ts:193-195 | an ID passes a filter input exactly when the input is blank or the lower-cased ID contains the lower-cased trimmed input |
| KeyFilters.LongerNeedleNarrows | src/app/views/data/history/history.component.ts:193-195 | an ID passing a needle passes every needle that the first one contains |
| KeyFilters.OwnIdMatches | src/app/views/data/history/history.component.ts:193-195 | a filter equal to a row's own ID, ignoring case and surrounding spaces, keeps the row |
| KeyFilters.KeyFilterKeepsMatches | src/app/views/data/history/history.component.ts:187-201 | the filter keeps, in order, exactly the rows whose three IDs pass their inputs, each as often as in the data, and with blank inputs every row |
| KeyFilters.KeyFilterOfNothing | src/app/views/data/history/history.component.ts:192 | filtering no rows gives no rows |
| KeyFilters.KeyFilterNarrows | src/app/views/data/history/history.component.ts:187-201 | longer needles never let through a row that shorter ones held back |
| KeyFilters.ContainsItself | src/app/views/data/history/history.component.ts:193-195 | an unchanged input narrows nothing |
| Csv.EscapeQuotes | src/app/views/data/location/location.component.ts:101-103 | doubling quotes never shortens a cell and leaves a quote-free one as it is |
| Csv.ReadQuoted | src/app/views/data/location/location.component.ts:101-105 | the cell reader consumes at least the closing quote |
| Csv.ReadRecord | src/app/views/data/location/location.component.ts:104-105 | the record reader consumes at least one cell |
| Csv.ReadEscapedCell | src/app/views/data/location/location.component.ts:101-103 | a cell with doubled quotes and its closing quote reads back as the cell |
| Csv.ClosingQuote | src/app/views/data/location/location.component.ts:103 | a quote not followed by another closes the cell |
| Csv.ReadEscapedText | src/app/views/data/location/location.component.ts:101-103 | written characters before a cell's end read back as themselves |
| Csv.ReadEscapedChar | src/app/views/data/location/location.component.ts:102 | a written character, a doubled quote included, reads back as itself |
| Csv.EscapedRecordCons | src/app/views/data/location/location.component.ts:104-105 | a record is its first cell, then a comma and the record of the rest |
| Csv.ReadRecordAfterCell | src/app/views/data/location/location.component.ts:104-105 | after a cell, the record reader stops, or goes on past a comma |
| Csv.ReadLastCell | src/app/views/data/location/location.component.ts:104-105 | a cell followed by text that cannot continue a record reads as a one-cell record |
| Csv.ReadCellThenRecord | src/app/views/data/location/location.component.ts:104-105 | a cell, a comma and a record read as one more cell |
| Csv.ReadEscapedRecord | src/app/views/data/location/location.component.ts:104-105 | a written record reads back as its cells |
| Csv.ReadRecordOfOne | src/app/views/data/location/location.component.ts:104-105 | a written one-cell record reads back |
| Csv.ReadRecordOfMore | src/app/views/data/location/location.component.ts:104-105 | a written record reads back once its tail does |
| Csv.ReadEscapedRecords | src/app/views/data/location/location.component.ts:108 | CRLF-joined written records read back as the rows |
| Csv.EscapedDocumentRoundTrip | src/app/views/data/location/location.component.ts:93-108 | the escaped export reads back as the header and every row's cells, whatever the cells hold |
| Csv.UnescapedIsEscapedWithoutQuotes | src/app/views/data/product/product.component.ts:229 | for quote-free cells the two quoting styles write the same lines |
| Csv.UnescapedDocumentRoundTrip | src/app/views/data/product/product.component.ts:224-230 | the unescaped export reads back when no cell holds a quote |
| Csv.UnescapedQuoteBreaksReading | src/app/views/data/product/product.component.ts:229 | a cell `x"y` makes the unescaped export unreadable |
| ProductScreen.ToProductKeepsFields | src/app/views/data/product/product.component.ts:87-95 | each loaded row holds the backend row's fields as strings, a missing one as `''` |
| ProductScreen.DistinctSortedLists | src/app/views/data/product/product.component.ts:96-97 | each dropdown list holds exactly the non-empty values, each once, in ascending order |
| ProductScreen.DistinctSortedUnique | src/app/views/data/product/product.component.ts:96-97 | any list holding exactly the non-empty values, each once, in ascending order is the dropdown list, so the three properties determine it |
| ProductScreen.BackendFieldForIgnoresCase | src/app/views/data/product/product.component.ts:142-153 | the field name is matched without regard to letter case |
| ProductScreen.CaseTokensAreTags | src/app/views/data/product/product.component.ts:118-122 | each `switch` token followed by `:` is the saved-query tag in the same place, lower-case and colon-free |
| ProductScreen.BackendFieldForTagged | src/app/views/data/product/product.component.ts:142-153 | every token the switch yields is a lower-case colon-free name whose tag the saved-query check knows |
| ProductScreen.BuildProductQuery | src/app/views/data/product/product.component.ts:155-163 | no query exactly for an unknown field or a blank term; a built query passes the saved-query check |
| ProductScreen.BuildProductQueryReadsBack | src/app/views/data/product/product.component.ts:155-163 | when the term holds no double quote, a built query reads back as the field's token and the wildcard pattern of the trimmed term |
| ProductScreen.ReconcileKeepsKeyedRows | src/app/views/data/product/product.component.ts:196-197 | the results are exactly the master rows whose ProductID some key carries, each as often as in the master data, in order; no keys give none |
| ProductScreen.DropdownFilterMatchesSelections | src/app/views/data/product/product.component.ts:210-222 | the dropdowns keep, in order, the rows whose BusinessUnit and IsNew equal the trimmed selections, each as often as in the results, a blank selection matching all |
| ProductScreen.CsvExport | src/app/views/data/product/product.component.ts:224-230 | no export exactly when no row is shown |
| ProductScreen.HeaderIsPlain | src/app/views/data/product/product.component.ts:227 | the header names hold no comma and no CR |
| ProductScreen.CsvExportReadsBack | src/app/views/data/product/product.component.ts:224-230 | the export reads back as the header and every shown row's cells when no cell holds a quote |
| ProductScreen.ProductComponent.constructor | src/app/views/data/product/product.component.ts:38-69 | the component starts empty on page 1 of 1, unsorted |
| ProductScreen.ProductComponent.UpdatePagination | src/app/views/data/product/product.component.ts:253-256 | the page count is `max(1, ceil(n / 5))` and the current page is pulled back inside it |
| ProductScreen.ProductComponent.SetPage | src/app/views/data/product/product.component.ts:263-266 | the page is clamped into `[1, max(1, totalPages)]` |
| ProductScreen.ProductComponent.PaginatedData | src/app/views/data/product/product.component.ts:258-261 | the current page's run of at most 5 shown rows |
| ProductScreen.ProductComponent.PageNumbers | src/app/views/data/product/product.component.ts:268-270 | the page numbers 1 to the page count |
| ProductScreen.ProductComponent.ApplyDropdownFilters | src/app/views/data/product/product.component.ts:210-222 | the shown rows are the dropdown filter of the results, on page 1, with the page count recomputed |
| ProductScreen.ProductComponent.ClearResults | src/app/views/data/product/product.component.ts:169-170 | no results and no shown rows, on page 1 of 1 |
| ProductScreen.ProductComponent.SortBy | src/app/views/data/product/product.component.ts:242-251 | a repeated column flips the direction, a new one sorts ascending; the shown rows become their stable sort by the lower-cased cell, a permutation in order |
| ProductScreen.ProductComponent.LoadProducts | src/app/views/data/product/product.component.ts:83-108 | on rows: the normalised rows, both dropdown lists, and cleared results; on failure only the error text changes |
| ProductScreen.ProductComponent.RunQueryAndFilterProducts | src/app/views/data/product/product.component.ts:183-207 | searches with limit 20000; results are the reconciled master rows, none on failure with its error text; then the dropdowns apply |
| ProductScreen.ProductComponent.PerformSearch | src/app/views/data/product/product.component.ts:166-181 | a blank term clears without error; an unknown field clears with an error; otherwise the query built with the field (`ProductID` by default) is run |
| ProductScreen.ProductComponent.LoadFromSaved | src/app/views/data/product/product.component.ts:124-139 | an index out of range only sets an error; a query without a product tag sets an error and clears; otherwise the saved query is run |
| ChannelScreen.ToChannelKeepsFields | src/app/views/data/channel/channel.component.ts:74-80 | each loaded row holds the backend row's fields as strings, a missing one as `''` |
| ChannelScreen.BackendFieldForIgnoresCase | src/app/views/data/channel/channel.component.ts:124-131 | the field name is matched without regard to letter case |
| ChannelScreen.CaseTokensAreTags | src/app/views/data/channel/channel.component.ts:100-103 | each `switch` token followed by `:` is the saved-query tag in the same place |
| ChannelScreen.BackendFieldForTagged | src/app/views/data/channel/channel.component.ts:124-131 | every token the switch yields is a lower-case colon-free name whose tag the saved-query check knows |
| ChannelScreen.BuildChannelQuery | src/app/views/data/channel/channel.component.ts:133-141 | no query exactly for an unknown field or a blank term; a built query passes the saved-query check |
| ChannelScreen.BuildChannelQueryReadsBack | src/app/views/data/channel/channel.component.ts:133-141 | when the term holds no double quote, a built query reads back as the field's token and the wildcard pattern of the trimmed term |
| ChannelScreen.ReconcileKeepsKeyedRows | src/app/views/data/channel/channel.component.ts:177-178 | the results are exactly the master rows whose ChannelID some key carries, in order; no keys give none |
| ChannelScreen.CsvExport | src/app/views/data/channel/channel.component.ts:194-200 | no export exactly when no row is shown |
| ChannelScreen.HeaderIsPlain | src/app/views/data/channel/channel.component.ts:197 | the header names hold no comma and no CR |
| ChannelScreen.CsvExportReadsBack | src/app/views/data/channel/channel.component.ts:194-200 | the export reads back as the header and every shown row's cells when no cell holds a quote |
| ChannelScreen.ChannelComponent.constructor | src/app/views/data/channel/channel.component.ts:34-59 | the component starts empty on page 1 of 1, unsorted |
| ChannelScreen.ChannelComponent.UpdatePagination | src/app/views/data/channel/channel.component.ts:224-227 | the page count is `max(1, ceil(n / 5))` and the current page is pulled back inside it |
| ChannelScreen.ChannelComponent.SetPage | src/app/views/data/channel/channel.component.ts:234-237 | the page is clamped into `[1, max(1, totalPages)]` |
| ChannelScreen.ChannelComponent.PaginatedData | src/app/views/data/channel/channel.component.ts:229-232 | the current page's run of at most 5 shown rows |
| ChannelScreen.ChannelComponent.PageNumbers | src/app/views/data/channel/channel.component.ts:239-241 | the page numbers 1 to the page count |
| ChannelScreen.ChannelComponent.ClearResults | src/app/views/data/channel/channel.component.ts:146-150 | no results and no shown rows, on page 1 of 1 |
| ChannelScreen.ChannelComponent.SortBy | src/app/views/data/channel/channel.component.ts:213-222 | a repeated column flips the direction, a new one sorts ascending; the shown rows become their stable sort by the lower-cased cell |
| ChannelScreen.ChannelComponent.LoadChannels | src/app/views/data/channel/channel.component.ts:70-89 | on rows: the normalised rows and cleared results; on failure only the error text changes |
| ChannelScreen.ChannelComponent.RunQueryAndFilterChannels | src/app/views/data/channel/channel.component.ts:163-191 | searches with limit 20000; results and shown rows are the reconciled master rows, on page 1; none on failure with its error text |
| ChannelScreen.ChannelComponent.PerformSearch | src/app/views/data/channel/channel.component.ts:144-161 | a blank term clears without error; an unknown field clears with an error; otherwise the query built with the field (`ChannelID` by default) is run |
| ChannelScreen.ChannelComponent.LoadFromSaved | src/app/views/data/channel/channel.component.ts:105-121 | an index out of range only sets an error; a query without a channel tag sets an error and clears; otherwise the saved query is run |
| LocationScreen.ToLocationKeepsFields | src/app/views/data/location/location.component.ts:75-82 | each loaded row holds the backend row's fields as strings, a missing one as `''` |
| LocationScreen.BackendFieldForIgnoresCase | src/app/views/data/location/location.component.ts:154-162 | the field name is matched without regard to letter case |
| LocationScreen.CaseTokensAreTags | src/app/views/data/location/location.component.ts:130-133 | each `switch` token followed by `:` is the saved-query tag in the same place |
| LocationScreen.BackendFieldForTagged | src/app/views/data/location/location.component.ts:154-162 | every token the switch yields is a lower-case colon-free name whose tag the saved-query check knows |
| LocationScreen.BuildLocationQuery | src/app/views/data/location/location.component.ts:164-172 | no query exactly for an unknown field or a blank term; a built query passes the saved-query check |
| LocationScreen.BuildLocationQueryReadsBack | src/app/views/data/location/location.component.ts:164-172 | when the term holds no double quote, a built query reads back as the field's token and the wildcard pattern of the trimmed term |
| LocationScreen.ReconcileKeepsKeyedRows | src/app/views/data/location/location.component.ts:208-209 | the results are exactly the master rows whose LocationID some key carries, in order; no keys give none |
| LocationScreen.CsvExport | src/app/views/data/location/location.component.ts:93-108 | no export exactly when neither shown nor loaded rows exist |
| LocationScreen.HeaderIsPlain | src/app/views/data/location/location.component.ts:98 | the header names hold no comma and no CR |
| LocationScreen.CsvExportReadsBack | src/app/views/data/location/location.component.ts:93-108 | the export reads back as the header and the cells of the shown rows, or of all rows when none is shown, whatever the cells hold |
| LocationScreen.LocationComponent.constructor | src/app/views/data/location/location.component.ts:35-60 | the component starts empty on page 1 of 1, unsorted |
| LocationScreen.LocationComponent.UpdatePagination | src/app/views/data/location/location.component.ts:236-239 | the page count is `max(1, ceil(n / 5))` and the current page is pulled back inside it |
| LocationScreen.LocationComponent.SetPage | src/app/views/data/location/location.component.ts:264-267 | the page is clamped into `[1, max(1, totalPages)]` |
| LocationScreen.LocationComponent.PaginatedData | src/app/views/data/location/location.component.ts:259-262 | the current page's run of at most 5 shown rows |
| LocationScreen.LocationComponent.PageNumbers | src/app/views/data/location/location.component.ts:269-271 | the page numbers 1 to the page count |
| LocationScreen.LocationComponent.VisiblePages | src/app/views/data/location/location.component.ts:241-257 | min(total, 5) consecutive pages inside `[1, total]` including the current page |
| LocationScreen.LocationComponent.ClearResults | src/app/views/data/location/location.component.ts:177-181 | no results and no shown rows, on page 1 of 1 |
| LocationScreen.LocationComponent.SortBy | src/app/views/data/location/location.component.ts:225-234 | a repeated column flips the direction, a new one sorts ascending; the shown rows become their stable sort by the lower-cased cell |
| LocationScreen.LocationComponent.LoadLocations | src/app/views/data/location/location.component.ts:71-91 | on rows: the normalised rows and cleared results; on failure only the error text changes |
| LocationScreen.LocationComponent.RunQueryAndFilterLocations | src/app/views/data/location/location.component.ts:194-222 | searches with limit 20000; results and shown rows are the reconciled master rows, on page 1; none on failure with its error text |
| LocationScreen.LocationComponent.PerformSearch | src/app/views/data/location/location.component.ts:175-192 | a blank term clears without error; an unknown field clears with an error; otherwise the query built with the field (`LocationID` by default) is run |
| LocationScreen.LocationComponent.LoadFromSaved | src/app/views/data/location/location.component.ts:135-151 | an index out of range only sets an error; a query without a location tag sets an error and clears; otherwise the saved query is run |
| HistoryScreen.ToHistoryKeepsFields | src/app/views/data/history/history.component.ts:130-142 | each row holds the nine backend fields as strings, a missing one as `''` |
| HistoryScreen.FilterRowsKeepsMatches | src/app/views/data/history/history.component.ts:187-201 | the filters keep, in order, exactly the rows whose three IDs pass their inputs, each as often as in the data; blank inputs keep all |
| HistoryScreen.CsvExport | src/app/views/data/history/history.component.ts:227-235 | no export exactly when no row is shown |
| HistoryScreen.HeaderIsPlain | src/app/views/data/history/history.component.ts:230 | the header names hold no comma and no CR |
| HistoryScreen.CsvExportReadsBack | src/app/views/data/history/history.component.ts:227-235 | the export reads back as the header and every shown row's cells when no cell holds a quote |
| HistoryScreen.HistoryComponent.constructor | src/app/views/data/history/history.component.ts:48-79 | the component starts empty on page 1 of 1, unsorted, with the `Daily` period |
| HistoryScreen.HistoryComponent.UpdatePagination | src/app/views/data/history/history.component.ts:262-265 | the page count is `max(1, ceil(n / 20))` and the current page is pulled back inside it |
| HistoryScreen.HistoryComponent.SetPage | src/app/views/data/history/history.component.ts:272-275 | the page is clamped into `[1, max(1, totalPages)]` |
| HistoryScreen.HistoryComponent.PaginatedData | src/app/views/data/history/history.component.ts:267-270 | the current page's run of at most 20 shown rows |
| HistoryScreen.HistoryComponent.PageNumbers | src/app/views/data/history/history.component.ts:277-279 | the page numbers 1 to the page count |
| HistoryScreen.HistoryComponent.VisiblePages | src/app/views/data/history/history.component.ts:209-225 | min(total, 5) consecutive pages inside `[1, total]` including the current page |
| HistoryScreen.HistoryComponent.ApplyFilters | src/app/views/data/history/history.component.ts:187-201 | the shown rows are the ID filter of the loaded rows, on page 1, with the page count recomputed |
| HistoryScreen.HistoryComponent.ClearAllFilters | src/app/views/data/history/history.component.ts:203-207 | the three inputs are blank and every loaded row is shown, on page 1 |
| HistoryScreen.HistoryComponent.SortBy | src/app/views/data/history/history.component.ts:247-260 | a repeated column flips the direction, a new one sorts ascending; the shown rows become their stable sort by the lower-cased cell |
| HistoryScreen.HistoryComponent.RunQueryAndLoadHistory | src/app/views/data/history/history.component.ts:144-183 | clears and goes to page 1; searches with limit 5000; with keys fetches the bucket's history for them; no keys end with a message unless silent; a failure sets its error text |
| HistoryScreen.HistoryComponent.ShowRows | src/app/views/data/history/history.component.ts:172-176 | keeps the fetched rows and shows their ID filter on page 1 |
| HistoryScreen.HistoryComponent.LoadFromSaved | src/app/views/data/history/history.component.ts:104-113 | an index out of range only sets the choose-a-saved-search error and keeps rows and pages; otherwise the saved query is run with the full outcome of `runQueryAndLoadHistory`: requests, rows, filtered rows, page 1, page count (kept on failure) and the error text, "no matches" when the search finds no keys |
| HistoryScreen.HistoryComponent.ReloadWithSameQueryIfAny | src/app/views/data/history/history.component.ts:116-121 | with no saved search selected nothing changes; otherwise the saved query is rerun with the full outcome of `runQueryAndLoadHistory`, except that no keys leave no message |
| HistoryScreen.HistoryComponent.OnPeriodChange | src/app/views/data/history/history.component.ts:86 | the period is stored, then the selected saved search is reloaded as in `reloadWithSameQueryIfAny`, the bulk request naming the new bucket; with none selected nothing else changes |
| ForecastScreen.ToForecastKeepsFields | src/app/views/data/forecast/forecast.component.ts:123-136 | each row holds the ten backend fields as strings, a missing one as `''` |
| ForecastScreen.FilterRowsKeepsMatches | src/app/views/data/forecast/forecast.component.ts:179-193 | the filters keep, in order, exactly the rows whose three IDs pass their inputs, each as often as in the data; blank inputs keep all |
| ForecastScreen.CsvExport | src/app/views/data/forecast/forecast.component.ts:201-209 | no export exactly when no row is shown |
| ForecastScreen.HeaderIsPlain | src/app/views/data/forecast/forecast.component.ts:204 | the header names hold no comma and no CR |
| ForecastScreen.CsvExportReadsBack | src/app/views/data/forecast/forecast.component.ts:201-209 | the export reads back as the header and every shown row's cells when no cell holds a quote |
| ForecastScreen.ForecastComponent.constructor | src/app/views/data/forecast/forecast.component.ts:44-75 | the component starts empty on page 1 of 1, unsorted, with the `Daily` period |
| ForecastScreen.ForecastComponent.UpdatePagination | src/app/views/data/forecast/forecast.component.ts:236-239 | the page count is `max(1, ceil(n / 5))` and the current page is pulled back inside it |
| ForecastScreen.ForecastComponent.SetPage | src/app/views/data/forecast/forecast.component.ts:247-250 | the page is clamped into `[1, max(1, totalPages)]` |
| ForecastScreen.ForecastComponent.PaginatedData | src/app/views/data/forecast/forecast.component.ts:241-244 | the current page's run of at most 5 shown rows |
| ForecastScreen.ForecastComponent.PageNumbers | src/app/views/data/forecast/forecast.component.ts:272-274 | the page numbers 1 to the page count |
| ForecastScreen.ForecastComponent.VisiblePages | src/app/views/data/forecast/forecast.component.ts:253-269 | min(total, 5) consecutive pages inside `[1, total]` including the current page |
| ForecastScreen.ForecastComponent.ApplyFilters | src/app/views/data/forecast/forecast.component.ts:179-193 | the shown rows are the ID filter of the loaded rows, on page 1, with the page count recomputed |
| ForecastScreen.ForecastComponent.ClearAllFilters | src/app/views/data/forecast/forecast.component.ts:195-199 | the three inputs are blank and every loaded row is shown, on page 1 |
| ForecastScreen.ForecastComponent.SortBy | src/app/views/data/forecast/forecast.component.ts:221-234 | a repeated column flips the direction, a new one sorts ascending; the shown rows become their stable sort by the lower-cased cell |
| ForecastScreen.ForecastComponent.RunQueryAndLoadForecast | src/app/views/data/forecast/forecast.component.ts:138-175 | clears and goes to page 1; searches with limit 5000; with keys fetches the bucket's forecast for them; no keys end with a message unless silent; a failure sets its error text |
| ForecastScreen.ForecastComponent.ShowRows | src/app/views/data/forecast/forecast.component.ts:166-169 | keeps the fetched rows and shows their ID filter on page 1 |
| ForecastScreen.ForecastComponent.LoadFromSaved | src/app/views/data/forecast/forecast.component.ts:98-107 | an index out of range only sets the choose-a-saved-search error and keeps rows and pages; otherwise the saved query is run with the full outcome of `runQueryAndLoadForecast`: requests, rows, filtered rows, page 1, page count (kept on failure) and the error text, "no matches" when the search finds no keys |
| ForecastScreen.ForecastComponent.ReloadWithSameQueryIfAny | src/app/views/data/forecast/forecast.component.ts:109-114 | with no saved search selected nothing changes; otherwise the saved query is rerun with the full outcome of `runQueryAndLoadForecast`, except that no keys leave no message |
| ForecastScreen.ForecastComponent.OnPeriodChange | src/app/views/data/forecast/forecast.component.ts:81 | the period is stored, then the selected saved search is reloaded as in `reloadWithSameQueryIfAny`, the bulk request naming the new bucket; with none selected nothing else changes |
| ForecastElementScreen.ElementsAreKeys | src/app/views/data/forecast-element/forecast-element.component.ts:115 | the table holds exactly the returned key triples, field for field and in order |
| ForecastElementScreen.Present | src/app/views/data/forecast-element/forecast-element.component.ts:83-93 | at most one part is pushed per input |
| ForecastElementScreen.PresentSnoc | src/app/views/data/forecast-element/forecast-element.component.ts:84-90 | one more call of `add` appends its fragment, if any |
| ForecastElementScreen.PresentEmptyIff | src/app/views/data/forecast-element/forecast-element.component.ts:94 | nothing is pushed exactly when every input yields no fragment |
| ForecastElementScreen.InputFragmentsEmptyIff | src/app/views/data/forecast-element/forecast-element.component.ts:91-94 | the parts are empty exactly when all three inputs are blank |
| ForecastElementScreen.Add | src/app/views/data/forecast-element/forecast-element.component.ts:84-90 | `add` pushes the input's fragment, or nothing for a blank input |
| ForecastElementScreen.InputQueryHasFragments | src/app/views/data/forecast-element/forecast-element.component.ts:91-94 | each non-blank input's fragment occurs in the joined query |
| ForecastElementScreen.PresentSplit | src/app/views/data/forecast-element/forecast-element.component.ts:91-93 | a pushed fragment sits after the fragments of the inputs before it |
| ForecastElementScreen.InputFragmentsReadBack | src/app/views/data/forecast-element/forecast-element.component.ts:85-89 | each fragment reads back as `productid`, `channelid` or `locationid` and the pattern of the trimmed input |
| ForecastElementScreen.FilterRowsKeepsMatches | src/app/views/data/forecast-element/forecast-element.component.ts:128-142 | the filters keep, in order, exactly the rows whose three IDs pass their inputs, each as often as in the data; blank inputs keep all |
| ForecastElementScreen.CsvExport | src/app/views/data/forecast-element/forecast-element.component.ts:150-154 | no export exactly when no row is shown |
| ForecastElementScreen.HeaderIsPlain | src/app/views/data/forecast-element/forecast-element.component.ts:152 | the header names hold no comma and no CR |
| ForecastElementScreen.CsvExportReadsBack | src/app/views/data/forecast-element/forecast-element.component.ts:150-154 | the export reads back as the header and every shown row's cells when no ID holds a quote |
| ForecastElementScreen.ForecastElementComponent.constructor | src/app/views/data/forecast-element/forecast-element.component.ts:29-54 | the component starts empty on page 1 of 1, unsorted |
| ForecastElementScreen.ForecastElementComponent.UpdatePagination | src/app/views/data/forecast-element/forecast-element.component.ts:173-176 | the page count is `max(1, ceil(n / 20))` and the current page is pulled back inside it |
| ForecastElementScreen.ForecastElementComponent.SetPage | src/app/views/data/forecast-element/forecast-element.component.ts:195-198 | the page is clamped into `[1, max(1, totalPages)]` |
| ForecastElementScreen.ForecastElementComponent.PaginatedData | src/app/views/data/forecast-element/forecast-element.component.ts:190-193 | the current page's run of at most 20 shown rows |
| ForecastElementScreen.ForecastElementComponent.PageNumbers | src/app/views/data/forecast-element/forecast-element.component.ts:200-202 | the page numbers 1 to the page count |
| ForecastElementScreen.ForecastElementComponent.VisiblePages | src/app/views/data/forecast-element/forecast-element.component.ts:178-188 | min(total, 5) consecutive pages inside `[1, total]` including the current page |
| ForecastElementScreen.ForecastElementComponent.ApplyFilters | src/app/views/data/forecast-element/forecast-element.component.ts:128-142 | the shown rows are the ID filter of the table, on page 1, with the page count recomputed |
| ForecastElementScreen.ForecastElementComponent.ClearAllFilters | src/app/views/data/forecast-element/forecast-element.component.ts:144-148 | the three inputs are blank and every row is shown, on page 1 |
| ForecastElementScreen.ForecastElementComponent.SortBy | src/app/views/data/forecast-element/forecast-element.component.ts:162-171 | a repeated column flips the direction, a new one sorts ascending; the shown rows become their stable sort by the lower-cased cell |
| ForecastElementScreen.ForecastElementComponent.BuildQueryFromInputs | src/app/views/data/forecast-element/forecast-element.component.ts:82-95 | no query exactly when all inputs are blank; otherwise the fragments of the non-blank inputs joined with ` AND ` |
| ForecastElementScreen.ForecastElementComponent.ShowRows | src/app/views/data/forecast-element/forecast-element.component.ts:115-118 | keeps the projected rows and shows their ID filter on page 1 |
| ForecastElementScreen.ForecastElementComponent.RunQuery | src/app/views/data/forecast-element/forecast-element.component.ts:104-125 | clears and goes to page 1; searches with limit 20000; the keys become the rows; a failure sets its error text and keeps the page count |
| ForecastElementScreen.ForecastElementComponent.RunTypedSearch | src/app/views/data/forecast-element/forecast-element.component.ts:97-101 | with all inputs blank only the enter-a-value error is set, nothing is requested and rows and pages are kept; otherwise the built query is run: rows from the keys, filtered rows, page 1, and either the page count and no error or the kept page count and the search-failed text |
| ForecastElementScreen.ForecastElementComponent.LoadFromSaved | src/app/views/data/forecast-element/forecast-element.component.ts:71-79 | an index out of range only sets the choose-a-saved-search error and keeps rows and pages; otherwise the saved query is run: rows from the keys, filtered rows, page 1, and either the page count and no error or the kept page count and the search-failed text |
| DemandUnitScreen.ColumnAt | src/app/views/data/demand-unit/demand-unit.component.ts:63-65 | a column exists exactly when its index is inside the split line |
| DemandUnitScreen.ParseLineReadsColumns | src/app/views/data/demand-unit/demand-unit.component.ts:61-66 | a line of tab-free columns reads as its first three columns, absent ones as absent |
| DemandUnitScreen.DataLinesAreTrimmed | src/app/views/data/demand-unit/demand-unit.component.ts:56-59 | every kept line is non-empty and trimmed |
| DemandUnitScreen.ParsedUnitsHaveProductId | src/app/views/data/demand-unit/demand-unit.component.ts:56-67 | every loaded unit has a non-empty ProductID |
| DemandUnitScreen.FirstPieceNonEmpty | src/app/views/data/demand-unit/demand-unit.component.ts:61-63 | a line not starting with a tab has a non-empty first column |
| DemandUnitScreen.UnitLineReadsBack | src/app/views/data/demand-unit/demand-unit.component.ts:58-66 | a writable unit's line survives the trim and reads back as the unit |
| DemandUnitScreen.LoadRoundTrip | src/app/views/data/demand-unit/demand-unit.component.ts:56-67 | loading a header line and the lines of writable units gives exactly those units |
| DemandUnitScreen.Judge | src/app/views/data/demand-unit/demand-unit.component.ts:81-86 | the row test throws only when a non-blank channel or location filter reads an absent column |
| DemandUnitScreen.FilterOrThrowSpec | src/app/views/data/demand-unit/demand-unit.component.ts:79-87 | the filter throws exactly when the test throws on some row; otherwise it keeps the accepted rows in order, and all of them when every filter is blank |
| DemandUnitScreen.FullRowsFilterLikeKeys | src/app/views/data/demand-unit/demand-unit.component.ts:74-87 | on rows with all three columns the filter never throws and keeps what the other screens' ID filters keep |
| DemandUnitScreen.JudgeFullRow | src/app/views/data/demand-unit/demand-unit.component.ts:82-86 | on a full row the test is the AND of the three ID tests |
| DemandUnitScreen.FilterSameOnRows | src/app/views/data/demand-unit/demand-unit.component.ts:81-87 | two tests that agree on every row filter alike |
| DemandUnitScreen.MissingChannelThrows | src/app/views/data/demand-unit/demand-unit.component.ts:84 | a row without a channel makes a non-blank channel filter throw |
| DemandUnitScreen.CsvExport | src/app/views/data/demand-unit/demand-unit.component.ts:99-107 | no export exactly when no row is shown |
| DemandUnitScreen.HeaderIsPlain | src/app/views/data/demand-unit/demand-unit.component.ts:102 | the header names hold no comma and no CR |
| DemandUnitScreen.CsvExportReadsBack | src/app/views/data/demand-unit/demand-unit.component.ts:99-107 | the export reads back as the header and every shown row's cells (absent ones as `undefined`) when no ID holds a quote |
| DemandUnitScreen.DemandUnitComponent.constructor | src/app/views/data/demand-unit/demand-unit.component.ts:30-44 | the component starts empty on page 1 of 1, unsorted |
| DemandUnitScreen.DemandUnitComponent.UpdatePagination | src/app/views/data/demand-unit/demand-unit.component.ts:134-136 | the page count is `ceil(n / 5)` with no lower bound: 0 exactly when no row is shown |
| DemandUnitScreen.DemandUnitComponent.SetPage | src/app/views/data/demand-unit/demand-unit.component.ts:143-145 | any page number is taken as it is |
| DemandUnitScreen.DemandUnitComponent.PaginatedData | src/app/views/data/demand-unit/demand-unit.component.ts:138-141 | at most 5 shown rows, whatever the page; from page 1 on, that page's run of rows |
| DemandUnitScreen.DemandUnitComponent.PageNumbers | src/app/views/data/demand-unit/demand-unit.component.ts:147-149 | the page numbers 1 to the page count, none for a count of 0 |
| DemandUnitScreen.DemandUnitComponent.LoadCsv | src/app/views/data/demand-unit/demand-unit.component.ts:54-72 | the parsed units are stored and none is shown, with a page count of 0 |
| DemandUnitScreen.DemandUnitComponent.ApplyFilters | src/app/views/data/demand-unit/demand-unit.component.ts:74-91 | a throwing filter changes nothing; otherwise the shown rows are the filter's result, on page 1 |
| DemandUnitScreen.DemandUnitComponent.ClearAllFilters | src/app/views/data/demand-unit/demand-unit.component.ts:93-97 | the three inputs are blank and every loaded unit is shown, on page 1 |
| DemandUnitScreen.DemandUnitComponent.SortBy | src/app/views/data/demand-unit/demand-unit.component.ts:119-132 | a repeated column flips the direction, a new one sorts ascending; the shown rows become their stable sort by the lower-cased cell, an absent one as `''` |
| SearchScreen.FirstKeyInFindsFirst | src/app/views/search/search.component.ts:88 | the key found is that of the first registry entry of the domain, `''` when there is none |
| SearchScreen.SwitchesMatchRegistry | src/app/views/search/search.component.ts:36-56 | the keys the value switches read are exactly the registry's keys of each domain |
| SearchScreen.RegistryIndex | src/app/views/search/search.component.ts:109-142 | every key a switch reads has a registry entry of its domain |
| SearchScreen.PushesSpec | src/app/views/search/search.component.ts:103-146 | a value is pushed exactly when some row of the domain holds it, non-blank, in the selected field |
| SearchScreen.FieldValuesSpec | src/app/views/search/search.component.ts:98-148 | the listed values are the field's non-blank values, each once, in ascending order; none for a key no switch reads |
| SearchScreen.CollectValues | src/app/views/search/search.component.ts:101-146 | the loop's `Set` holds the pushed values in first-insertion order |
| SearchScreen.EscapeQuotes | src/app/views/search/search.component.ts:174 | escaping never shortens the value |
| SearchScreen.QuoteIfNeeded | src/app/views/search/search.component.ts:173-175 | a value without whitespace, `:` or `"` is kept as it is |
| SearchScreen.JoinLaterParts | src/app/views/search/search.component.ts:181-186 | the joined parts are the first token then ` OP key:value` per later criterion |
| SearchScreen.BuiltQueryShape | src/app/views/search/search.component.ts:178-187 | the query is the first token followed by ` OP key:value` for each later criterion |
| SearchScreen.BlankQueryIffNoCriteria | src/app/views/search/search.component.ts:193-196 | the trimmed query is blank exactly when there are no criteria |
| SearchScreen.ReadQuotedRoundTrip | src/app/views/search/search.component.ts:174 | a quoted value not ending in a backslash reads back |
| SearchScreen.ReadPlainRoundTrip | src/app/views/search/search.component.ts:174 | an unquoted value reads back up to the next space |
| SearchScreen.ReadEscapedRoundTrip | src/app/views/search/search.component.ts:174 | escaped text and its closing quote read back as the value |
| SearchScreen.ReadValueRoundTrip | src/app/views/search/search.component.ts:173-175 | `quoteIfNeeded` is undone by the value reader unless a quoted value ends in a backslash |
| SearchScreen.ReadCriterionRoundTrip | src/app/views/search/search.component.ts:182 | a token reads back as its key and value |
| SearchScreen.OperatorSelects | src/app/views/search/search.component.ts:184 | the written operator word identifies the operator |
| SearchScreen.ReadLaterRoundTrip | src/app/views/search/search.component.ts:181-186 | the later criteria read back with their operators |
| SearchScreen.BuiltQueryReadsBack | src/app/views/search/search.component.ts:178-187 | the query reads back as every criterion with its key, value and operator, the first operator as `AND`, when no key holds a colon and no quoted value ends in a backslash |
| SearchScreen.TrailingBackslashBreaksReading | src/app/views/search/search.component.ts:173-175 | the quoted value ` \` does not read back |
| SearchScreen.SearchComponent.constructor | src/app/views/search/search.component.ts:59-72 | the builder starts on the product domain's `businessunit` field with no criteria, the `AND` operator and no values |
| SearchScreen.SearchComponent.RefreshFieldValues | src/app/views/search/search.component.ts:98-151 | the values are the sorted distinct non-blank values of the selected field, and the first of them (or `''`) is selected |
| SearchScreen.SearchComponent.OnDomainChange | src/app/views/search/search.component.ts:86-91 | the domain's first registry key is selected and the values are refreshed |
| SearchScreen.SearchComponent.OnFieldChange | src/app/views/search/search.component.ts:93-96 | the key is selected and the values are refreshed |
| SearchScreen.SearchComponent.OnRowsLoaded | src/app/views/search/search.component.ts:79-84 | a domain's rows are stored, the others kept, and the values are refreshed |
| SearchScreen.SearchComponent.AddCriterion | src/app/views/search/search.component.ts:153-163 | no change without a key, a non-blank value, or when the pair exists; otherwise the trimmed value is appended with the next operator, and no pair is ever held twice |
| SearchScreen.SearchComponent.RemoveCriterion | src/app/views/search/search.component.ts:165-167 | exactly the entry at the index is removed, the others kept in order |
| SearchScreen.SearchComponent.SetOp | src/app/views/search/search.component.ts:169-171 | only the operator of the entry at the index changes |
| SearchScreen.SearchComponent.Save | src/app/views/search/search.component.ts:189-209 | a blank name is refused first, then a query with no criteria; otherwise the trimmed name and query are stored, and the outcome sets the success flag or the error text |

## Left out

- HTTP calls, observables, the `loading` flag and the overlap of requests in flight: each outcome is a handler parameter, and a request is returned as a value.
- Angular's reactive wiring (`valueChanges`, signals, `computed`): each handler is a method called with the current control values; a change of a filter input is modelled as a call of the filtering method.
- The Blob, anchor and file-name side of every `exportToCSV`: only the CSV text is modelled.
- `refreshSavedSearches`, the saved-search list load and the store behind `save`: the list is a parameter and the store's answer an outcome.
- Console logging.
- `String(v)` of a non-string backend value: row fields are strings or absent.
- Locale collation and Unicode case mapping: lexicographic order and ASCII lower-casing stand for `localeCompare` and `toLowerCase`.
- Routes, navigation, the search service wrapper and the cleanse-history screen are not part of this model.
