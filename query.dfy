/**
 * The query-fragment compiler shared by the master screens and the
 * forecast-element screen: a typed value becomes `field:value`, where the value
 * is wrapped as `*v*` when it carries no wildcard and is then double-quoted when
 * it contains whitespace. Also the saved-query tag check.
 */
module QueryFragments {
  import opened Wrappers
  import opened Text

  /** `/[.*%]/.test(v)`. */
  predicate HasWildcard(v: string) {
    exists i :: 0 <= i < |v| && (v[i] == '.' || v[i] == '*' || v[i] == '%')
  }

  /** The search pattern for a value: `*v*` unless `v` already has a wildcard. */
  function Pattern(v: string): (r: string)
    ensures HasWildcard(r)
    ensures HasWhitespace(r) <==> HasWhitespace(v)
    ensures Contains(r, v)
  {
    if HasWildcard(v) then
      assert OccursAt(v, v, 0);
      v
    else
      var r := "*" + v + "*";
      assert r[0] == '*';
      assert OccursAt(r, v, 1);
      assert forall i :: 0 <= i < |v| ==> r[i + 1] == v[i];
      r
  }

  /** `/\s/.test(p) ? `"${p}"` : p`. */
  function QuoteIfSpaced(p: string): (r: string)
    ensures HasWhitespace(p) ==> r == "\"" + p + "\""
    ensures !HasWhitespace(p) ==> r == p
  {
    if HasWhitespace(p) then "\"" + p + "\"" else p
  }

  /**
   * The fragment for a backend field and a typed term: nothing when the term
   * trims to empty, otherwise `field:` followed by the quoted pattern of the
   * trimmed term.
   */
  function Fragment(field: string, term: string): (r: Option<string>)
    ensures r.None? <==> AllWhitespace(term)
    ensures r.Some? ==> |field| < |r.value| && r.value[..|field| + 1] == field + ":"
  {
    var v := Trim(term);
    if v == [] then None
    else
      var q := field + ":" + QuoteIfSpaced(Pattern(v));
      assert q[..|field| + 1] == field + ":";
      Some(q)
  }

  /** Strips one pair of surrounding double quotes. */
  function Unquote(v: string): string {
    if |v| >= 2 && v[0] == '"' && v[|v| - 1] == '"' then v[1..|v| - 1] else v
  }

  /** Reads a fragment back: the field before the first `:` and the unquoted value after it. */
  function ParseFragment(s: string): (r: Option<(string, string)>)
    ensures r.Some? ==> ':' !in r.value.0
  {
    match IndexOf(s, ':')
    case None => None
    case Some(i) => Some((s[..i], Unquote(s[i + 1..])))
  }

  lemma TrimmedNoChar(term: string, c: char)
    requires c !in term
    ensures c !in Trim(term)
  {
    TrimKeepsChars(term);
  }

  /** The text after the first `:` of `field:rest` is `rest`, when `field` has no `:`. */
  lemma ParseAfterField(field: string, rest: string)
    requires ':' !in field
    ensures ParseFragment(field + ":" + rest) == Some((field, Unquote(rest)))
  {
    var s := field + ":" + rest;
    assert s[|field|] == ':';
    assert s[..|field|] == field;
    assert IndexOf(s, ':') == Some(|field|);
    assert s[|field| + 1..] == rest;
  }

  /** Quoting a pattern without `"` is undone by `Unquote`. */
  lemma UnquoteQuoteIfSpaced(p: string)
    requires '"' !in p && p != []
    ensures Unquote(QuoteIfSpaced(p)) == p
  {
    if HasWhitespace(p) {
      var q := "\"" + p + "\"";
      assert q[1..|q| - 1] == p;
    } else {
      assert p[0] != '"';
    }
  }

  /**
   * A fragment reads back as its field and the pattern of the trimmed term,
   * when the field has no `:` and the term no `"`.
   */
  lemma FragmentRoundTrip(field: string, term: string)
    requires ':' !in field && '"' !in term
    requires !AllWhitespace(term)
    ensures ParseFragment(Fragment(field, term).value) == Some((field, Pattern(Trim(term))))
  {
    var v := Trim(term);
    TrimmedNoChar(term, '"');
    var p := Pattern(v);
    assert '"' !in p by {
      if !HasWildcard(v) {
        assert p == ['*'] + v + ['*'];
      }
    }
    assert p != [] by {
      assert Contains(p, v) && v != [];
    }
    assert Fragment(field, term) == Some(field + ":" + QuoteIfSpaced(p));
    ParseAfterField(field, QuoteIfSpaced(p));
    UnquoteQuoteIfSpaced(p);
  }

  /** `tags.some(tag => q.toLowerCase().includes(tag))`, tried tag by tag. */
  predicate MentionsAny(q: string, tags: seq<string>)
    decreases |tags|
  {
    |tags| > 0 && (Contains(Lower(q), tags[0]) || MentionsAny(q, tags[1..]))
  }

  /** The query mentions some tag exactly when its lower-cased text contains one of them. */
  lemma {:induction false} MentionsAnyIff(q: string, tags: seq<string>)
    ensures MentionsAny(q, tags) <==> exists k :: 0 <= k < |tags| && Contains(Lower(q), tags[k])
    decreases |tags|
  {
    if |tags| > 0 {
      MentionsAnyIff(q, tags[1..]);
      if exists k :: 0 <= k < |tags| && Contains(Lower(q), tags[k]) {
        var k :| 0 <= k < |tags| && Contains(Lower(q), tags[k]);
        if k > 0 {
          assert tags[1..][k - 1] == tags[k];
        }
      }
      if MentionsAny(q, tags[1..]) {
        var k :| 0 <= k < |tags[1..]| && Contains(Lower(q), tags[1..][k]);
        assert tags[k + 1] == tags[1..][k];
      }
    }
  }

  /** A query that contains a lower-case field's fragment mentions the tag `field:`. */
  lemma QueryWithFragmentMentions(q: string, field: string, term: string, tags: seq<string>)
    requires IsLowerCase(field)
    requires Fragment(field, term).Some? && Contains(q, Fragment(field, term).value)
    requires field + ":" in tags
    ensures MentionsAny(q, tags)
  {
    var f := Fragment(field, term).value;
    var head := field + ":";
    assert f == head + f[|head|..];
    assert IsLowerCase(head);
    LowerAppend(head, f[|head|..]);
    LowerOfLowerCase(head);
    ContainsPrefix(Lower(f), head, Lower(f[|head|..]));
    LowerContains(q, f);
    var j :| 0 <= j <= |Lower(q)| - |Lower(f)| && OccursAt(Lower(q), Lower(f), j);
    ContainsWithin(Lower(q), Lower(f), j, head);
    var k :| 0 <= k < |tags| && tags[k] == head;
    MentionsAnyIff(q, tags);
  }

  /** A fragment mentions its own lower-case field's tag. */
  lemma FragmentMentionsField(field: string, term: string, tags: seq<string>)
    requires IsLowerCase(field)
    requires Fragment(field, term).Some?
    requires field + ":" in tags
    ensures MentionsAny(Fragment(field, term).value, tags)
  {
    var f := Fragment(field, term).value;
    assert OccursAt(f, f, 0);
    QueryWithFragmentMentions(f, field, term, tags);
  }

  /**
   * A `switch` over string cases: the value of the first case equal to `key`,
   * or nothing when no case matches.
   */
  function Lookup(cases: seq<(string, string)>, key: string): (r: Option<string>)
    ensures r.Some? ==> exists k :: 0 <= k < |cases| && cases[k].0 == key && cases[k].1 == r.value &&
                                   forall j :: 0 <= j < k ==> cases[j].0 != key
    ensures r.None? <==> forall k :: 0 <= k < |cases| ==> cases[k].0 != key
  {
    if cases == [] then None
    else if cases[0].0 == key then Some(cases[0].1)
    else
      var r := Lookup(cases[1..], key);
      assert forall k :: 1 <= k < |cases| ==> cases[k] == cases[1..][k - 1];
      r
  }

  /** Every case label is matched: it finds that case, or an earlier one with the same label. */
  lemma LookupFindsCase(cases: seq<(string, string)>, k: nat)
    requires k < |cases|
    ensures Lookup(cases, cases[k].0).Some?
  {
  }
}
