/**
 * What the screens exchange with the backend: key triples, saved searches, the
 * parameters of a search request, and the outcome of a search or a bulk fetch.
 * The requests themselves are not modelled; their outcomes are inputs.
 */
module Backend {
  import opened Wrappers
  import opened Text

  /** A row as the backend sends it. A missing name stands for `null` or `undefined`. */
  type RawRow = map<string, string>

  /** `String(r[name] ?? '')`. */
  function FieldOr(r: RawRow, name: string): string {
    if name in r then r[name] else ""
  }

  datatype KeyTriplet = KeyTriplet(ProductID: string, ChannelID: string, LocationID: string)

  datatype SavedSearch = SavedSearch(name: string, query: string)

  /** The parameters of `GET /api/search`. */
  datatype SearchRequest = SearchRequest(q: string, limit: int, offset: int)

  /** The limit the master and forecast-element screens send. */
  const MasterSearchLimit := 20000
  /** The limit the history and forecast screens send. */
  const SeriesSearchLimit := 5000

  /** The message a failed search shows when the error carries no text of its own. */
  const SearchFailedMessage := "Search failed."

  /**
   * The outcome of a search: the returned keys (`res?.keys ?? []`), or a failure
   * carrying its `error.detail` or `message` text (empty when neither is set).
   */
  datatype SearchOutcome = Found(keys: seq<KeyTriplet>) | SearchFailed(detail: string)

  /** The outcome of a bulk fetch or a master-data load. */
  datatype FetchOutcome = Fetched(rows: seq<RawRow>) | FetchFailed(detail: string)

  /** `e?.error?.detail || e?.message || fallback`. */
  function ErrorText(detail: string, fallback: string): (r: string)
    ensures detail != "" ==> r == detail
    ensures detail == "" ==> r == fallback
  {
    if detail == "" then fallback else detail
  }

  /** The saved query the selected index designates, or nothing for an index out of range. */
  function SelectedQuery(saved: seq<SavedSearch>, idx: int): (r: Option<string>)
    ensures r.None? <==> idx < 0 || idx >= |saved|
    ensures r.Some? ==> r.value == saved[idx].query
  {
    if idx < 0 || idx >= |saved| then None else Some(saved[idx].query)
  }

  /** The bucket a period selects for the bulk endpoints: `Weekly`, `Monthly`, and `daily` for anything else. */
  function BucketSlug(period: string): (slug: string)
    ensures slug == "daily" || slug == "weekly" || slug == "monthly"
    ensures slug == "weekly" <==> period == "Weekly"
    ensures slug == "monthly" <==> period == "Monthly"
  {
    if period == "Weekly" then "weekly" else if period == "Monthly" then "monthly" else "daily"
  }

  /** For the three periods the selector offers, the bucket is the period's lower-case name. */
  lemma BucketSlugIsLowerCasePeriod(period: string)
    requires period == "Daily" || period == "Weekly" || period == "Monthly"
    ensures BucketSlug(period) == Lower(period)
  {
    if period == "Daily" {
      assert Lower(period) == "daily";
    } else if period == "Weekly" {
      assert Lower(period) == "weekly";
    } else {
      assert Lower(period) == "monthly";
    }
  }

  /** A bulk fetch: `POST {kind}/{bucket}-by-keys` with the keys. */
  datatype BulkRequest = BulkRequest(kind: string, bucket: string, keys: seq<KeyTriplet>)
}
