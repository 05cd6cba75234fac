/**
 * The local table filters of the history, forecast, forecast-element and
 * demand-unit screens: each of the three inputs is trimmed and lower-cased, and
 * a row passes when every non-blank input occurs in its lower-cased ID.
 */
module KeyFilters {
  import opened Text
  import opened Seqs
  import opened Backend

  /** `(input || '').trim().toLowerCase()`. */
  function Needle(input: string): (n: string)
    ensures n == [] <==> AllWhitespace(input)
    ensures IsLowerCase(n)
  {
    LowerIdempotent(Trim(input));
    Lower(Trim(input))
  }

  /** `!needle || id.toLowerCase().includes(needle)`. */
  predicate IdMatches(id: string, needle: string) {
    needle == [] || Contains(Lower(id), needle)
  }

  /** The AND of the three ID tests. */
  predicate KeysMatch(productId: string, channelId: string, locationId: string,
                      prod: string, chan: string, loc: string) {
    IdMatches(productId, prod) && IdMatches(channelId, chan) && IdMatches(locationId, loc)
  }

  /** What a filter input asks of an ID: a blank input matches every ID; any other must occur in it, ignoring letter case. */
  lemma NeedleMatches(id: string, input: string)
    ensures IdMatches(id, Needle(input)) <==> AllWhitespace(input) || Contains(Lower(id), Lower(Trim(input)))
  {
  }

  /** Typing more text never lets more rows through: a needle containing another narrows it. */
  lemma LongerNeedleNarrows(id: string, shorter: string, longer: string)
    requires Contains(longer, shorter)
    requires IdMatches(id, longer)
    ensures IdMatches(id, shorter)
  {
    if shorter != [] {
      var i :| 0 <= i <= |longer| - |shorter| && OccursAt(longer, shorter, i);
      assert longer != [];
      var j :| 0 <= j <= |Lower(id)| - |longer| && OccursAt(Lower(id), longer, j);
      ContainsWithin(Lower(id), longer, j, shorter);
    }
  }

  /** A row always passes a filter holding its own ID, in any letter case and with any surrounding spaces. */
  lemma OwnIdMatches(id: string, input: string)
    requires Lower(Trim(input)) == Lower(Trim(id))
    ensures IdMatches(id, Needle(input))
  {
    TrimIsPart(id);
    LowerContains(id, Trim(id));
  }

  /**
   * The row test of a screen whose rows carry a key triple, for the three filter
   * inputs as typed (each is turned into its needle).
   */
  function RowMatches<T>(key: T -> KeyTriplet, prodInput: string, chanInput: string, locInput: string): T -> bool {
    (t: T) => KeysMatch(key(t).ProductID, key(t).ChannelID, key(t).LocationID,
                        Needle(prodInput), Needle(chanInput), Needle(locInput))
  }

  /** `rows.filter(...)` with the three filter inputs. */
  function KeyFilter<T>(rows: seq<T>, key: T -> KeyTriplet, prodInput: string, chanInput: string, locInput: string): seq<T> {
    Filter(rows, RowMatches(key, prodInput, chanInput, locInput))
  }

  /**
   * The filter keeps, in order, exactly the rows whose IDs pass the three inputs
   * (see `NeedleMatches`), each as often as it occurs in `rows`; with all inputs
   * blank it keeps every row.
   */
  lemma KeyFilterKeepsMatches<T(!new)>(rows: seq<T>, key: T -> KeyTriplet, prodInput: string, chanInput: string, locInput: string)
    ensures forall t :: t in KeyFilter(rows, key, prodInput, chanInput, locInput) <==>
      && t in rows
      && IdMatches(key(t).ProductID, Needle(prodInput))
      && IdMatches(key(t).ChannelID, Needle(chanInput))
      && IdMatches(key(t).LocationID, Needle(locInput))
    ensures forall t :: multiset(KeyFilter(rows, key, prodInput, chanInput, locInput))[t] ==
              if RowMatches(key, prodInput, chanInput, locInput)(t) then multiset(rows)[t] else 0
    ensures IsSubsequence(KeyFilter(rows, key, prodInput, chanInput, locInput), rows)
    ensures AllWhitespace(prodInput) && AllWhitespace(chanInput) && AllWhitespace(locInput) ==>
      KeyFilter(rows, key, prodInput, chanInput, locInput) == rows
  {
    FilterSpec(rows, RowMatches(key, prodInput, chanInput, locInput));
    if AllWhitespace(prodInput) && AllWhitespace(chanInput) && AllWhitespace(locInput) {
      FilterAll(rows, RowMatches(key, prodInput, chanInput, locInput));
    }
  }

  /** Filtering no rows gives no rows, whatever the inputs. */
  lemma KeyFilterOfNothing<T>(key: T -> KeyTriplet, prodInput: string, chanInput: string, locInput: string)
    ensures KeyFilter([], key, prodInput, chanInput, locInput) == []
  {
  }

  /**
   * Typing more into any of the three inputs never lets a row through that the
   * shorter inputs held back: the filter only narrows as the needles grow.
   */
  lemma KeyFilterNarrows<T(!new)>(rows: seq<T>, key: T -> KeyTriplet,
                                 prodInput: string, chanInput: string, locInput: string,
                                 prodInput': string, chanInput': string, locInput': string)
    requires Contains(Needle(prodInput'), Needle(prodInput))
    requires Contains(Needle(chanInput'), Needle(chanInput))
    requires Contains(Needle(locInput'), Needle(locInput))
    ensures forall t :: t in KeyFilter(rows, key, prodInput', chanInput', locInput') ==>
                        t in KeyFilter(rows, key, prodInput, chanInput, locInput)
  {
    KeyFilterKeepsMatches(rows, key, prodInput, chanInput, locInput);
    KeyFilterKeepsMatches(rows, key, prodInput', chanInput', locInput');
    forall t | t in KeyFilter(rows, key, prodInput', chanInput', locInput')
      ensures t in KeyFilter(rows, key, prodInput, chanInput, locInput)
    {
      LongerNeedleNarrows(key(t).ProductID, Needle(prodInput), Needle(prodInput'));
      LongerNeedleNarrows(key(t).ChannelID, Needle(chanInput), Needle(chanInput'));
      LongerNeedleNarrows(key(t).LocationID, Needle(locInput), Needle(locInput'));
    }
  }

  /** A needle contains itself, so an unchanged input satisfies the narrowing condition. */
  lemma ContainsItself(s: string)
    ensures Contains(s, s)
  {
    assert OccursAt(s, s, 0);
  }
}
