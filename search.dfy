/**
 * The saved-search builder: a registry of searchable fields per domain, the
 * distinct values of the chosen field, a list of criteria joined by AND/OR,
 * the query text compiled from them, and the guards of saving it.
 */
module SearchScreen {
  import opened Wrappers
  import opened Text
  import opened Seqs
  import Sorting
  import opened Backend
  import opened QueryFragments

  datatype Domain = ProductDomain | ChannelDomain | LocationDomain

  datatype Op = And | Or

  /** The operator as it is written into the query (`(c.op ?? 'AND').toUpperCase()`). */
  function OpText(op: Op): string {
    match op case And => "AND" case Or => "OR"
  }

  /** A registry entry; `caption` is the source's `label`, which is a keyword here. */
  datatype FieldOption = FieldOption(key: string, caption: string, domain: Domain)

  /** The `fields` registry, in the order the dropdown lists it. */
  const Fields: seq<FieldOption> := [
    FieldOption("productid", "Product ID", ProductDomain),
    FieldOption("productdescr", "Product Description", ProductDomain),
    FieldOption("businessunit", "Business Unit", ProductDomain),
    FieldOption("isdailyforecastrequired", "Is Daily Forecast Required", ProductDomain),
    FieldOption("isnew", "Is New", ProductDomain),
    FieldOption("productfamily", "Product Family", ProductDomain),
    FieldOption("productlevel", "Product Level", ProductDomain),
    FieldOption("channelid", "Channel ID", ChannelDomain),
    FieldOption("channeldescr", "Channel Description", ChannelDomain),
    FieldOption("channellevel", "Channel Level", ChannelDomain),
    FieldOption("locationid", "Location ID", LocationDomain),
    FieldOption("locationdescr", "Location Description", LocationDomain),
    FieldOption("locationlevel", "Location Level", LocationDomain),
    FieldOption("geography", "Geography", LocationDomain)
  ]

  /** `fs.find(f => f.domain === dom)?.key ?? ''`. */
  function FirstKeyIn(fs: seq<FieldOption>, dom: Domain): string
    decreases |fs|
  {
    if fs == [] then "" else if fs[0].domain == dom then fs[0].key else FirstKeyIn(fs[1..], dom)
  }

  /** The key found is that of the first entry of the domain; it is empty only when the domain has no entry. */
  lemma {:induction false} FirstKeyInFindsFirst(fs: seq<FieldOption>, dom: Domain)
    ensures (forall i :: 0 <= i < |fs| ==> fs[i].domain != dom) ==> FirstKeyIn(fs, dom) == ""
    ensures forall i :: 0 <= i < |fs| && fs[i].domain == dom && (forall j :: 0 <= j < i ==> fs[j].domain != dom) ==>
      FirstKeyIn(fs, dom) == fs[i].key
    decreases |fs|
  {
    if fs != [] {
      FirstKeyInFindsFirst(fs[1..], dom);
      forall i | 0 <= i < |fs| && fs[i].domain == dom && (forall j :: 0 <= j < i ==> fs[j].domain != dom)
        ensures FirstKeyIn(fs, dom) == fs[i].key
      {
        if i > 0 {
          assert fs[0].domain != dom;
          assert fs[1..][i - 1] == fs[i];
          assert forall j :: 0 <= j < i - 1 ==> fs[1..][j] == fs[j + 1];
        }
      }
      if forall i :: 0 <= i < |fs| ==> fs[i].domain != dom {
        assert fs[0].domain != dom;
        assert forall i :: 0 <= i < |fs[1..]| ==> fs[1..][i] == fs[i + 1];
      }
    }
  }

  // ----- Field values -----

  /** The `switch (key)` of each domain's loop: the row field a registry key reads, or nothing when no case matches. */
  function ColumnFor(dom: Domain, key: string): Option<string> {
    match dom
    case ProductDomain =>
      if key == "productid" then Some("ProductID")
      else if key == "productdescr" then Some("ProductDescr")
      else if key == "businessunit" then Some("BusinessUnit")
      else if key == "isdailyforecastrequired" then Some("IsDailyForecastRequired")
      else if key == "isnew" then Some("IsNew")
      else if key == "productfamily" then Some("ProductFamily")
      else if key == "productlevel" then Some("Level")
      else None
    case ChannelDomain =>
      if key == "channelid" then Some("ChannelID")
      else if key == "channeldescr" then Some("ChannelDescr")
      else if key == "channellevel" then Some("Level")
      else None
    case LocationDomain =>
      if key == "locationid" then Some("LocationID")
      else if key == "locationdescr" then Some("LocationDescr")
      else if key == "locationlevel" then Some("Level")
      else if key == "geography" then Some("Geography")
      else None
  }

  /** The keys the switches read are exactly the registry's keys of that domain. */
  lemma SwitchesMatchRegistry(dom: Domain, key: string)
    ensures ColumnFor(dom, key).Some? <==>
      exists i :: 0 <= i < |Fields| && Fields[i].domain == dom && Fields[i].key == key
  {
    forall i | 0 <= i < |Fields|
      ensures ColumnFor(Fields[i].domain, Fields[i].key).Some?
    {
    }
    if ColumnFor(dom, key).Some? {
      var i := RegistryIndex(dom, key);
      assert Fields[i].domain == dom && Fields[i].key == key;
    }
  }

  /** Where a key the switches read sits in the registry. */
  function RegistryIndex(dom: Domain, key: string): (i: nat)
    requires ColumnFor(dom, key).Some?
    ensures i < |Fields| && Fields[i].domain == dom && Fields[i].key == key
  {
    match dom
    case ProductDomain =>
      if key == "productid" then 0 else if key == "productdescr" then 1 else if key == "businessunit" then 2
      else if key == "isdailyforecastrequired" then 3 else if key == "isnew" then 4
      else if key == "productfamily" then 5 else 6
    case ChannelDomain =>
      if key == "channelid" then 7 else if key == "channeldescr" then 8 else 9
    case LocationDomain =>
      if key == "locationid" then 10 else if key == "locationdescr" then 11 else if key == "locationlevel" then 12 else 13
  }

  /** What `push` adds for one row: the field's text, unless it is missing or blank. */
  function Pushed(r: RawRow, col: Option<string>): seq<string> {
    if col.Some? && col.value in r && !AllWhitespace(r[col.value]) then [r[col.value]] else []
  }

  /** Everything `push` is handed while the loop runs over `rows`, in order. */
  function Pushes(rows: seq<RawRow>, col: Option<string>): seq<string>
    decreases |rows|
  {
    if rows == [] then [] else Pushes(rows[..|rows| - 1], col) + Pushed(rows[|rows| - 1], col)
  }

  /** A value is pushed exactly when some row holds it, non-blank, in the selected field. */
  lemma {:induction false} PushesSpec(rows: seq<RawRow>, col: Option<string>)
    ensures forall v :: v in Pushes(rows, col) <==>
      col.Some? && !AllWhitespace(v) && exists r :: r in rows && col.value in r && r[col.value] == v
    decreases |rows|
  {
    if rows != [] {
      var init := rows[..|rows| - 1];
      PushesSpec(init, col);
      assert rows == init + [rows[|rows| - 1]];
      forall v ensures v in Pushes(rows, col) <==>
        col.Some? && !AllWhitespace(v) && exists r :: r in rows && col.value in r && r[col.value] == v
      {
        if col.Some? && !AllWhitespace(v) && exists r :: r in rows && col.value in r && r[col.value] == v {
          var r :| r in rows && col.value in r && r[col.value] == v;
          if r !in init {
            assert r == rows[|rows| - 1];
          }
        }
      }
    }
  }

  function Identity(s: string): string { s }

  /** `Array.from(uniq).sort((a, b) => a.localeCompare(b))` for the values pushed from `rows`. */
  function FieldValues(rows: seq<RawRow>, col: Option<string>): seq<string> {
    Sorting.SortBy(Distinct(Pushes(rows, col)), Identity, true)
  }

  /** The values listed are the non-blank values of the field, each once, in ascending order. */
  lemma FieldValuesSpec(rows: seq<RawRow>, col: Option<string>)
    ensures forall v :: v in FieldValues(rows, col) <==>
      col.Some? && !AllWhitespace(v) && exists r :: r in rows && col.value in r && r[col.value] == v
    ensures NoDuplicates(FieldValues(rows, col))
    ensures Sorting.SortedBy(FieldValues(rows, col), Identity, true)
    ensures col.None? ==> FieldValues(rows, col) == []
  {
    var d := Distinct(Pushes(rows, col));
    PushesSpec(rows, col);
    DistinctSpec(Pushes(rows, col));
    Sorting.SortBySpec(d, Identity, true);
    PermutationKeepsNoDuplicates(d, FieldValues(rows, col));
    assert forall v :: v in FieldValues(rows, col) <==> v in multiset(FieldValues(rows, col));
    assert forall v :: v in d <==> v in multiset(d);
  }

  /** The loop of `fromProducts`, `fromChannels` or `fromLocations`: `push` each row's field into the set. */
  method CollectValues(rows: seq<RawRow>, col: Option<string>) returns (uniq: seq<string>)
    ensures uniq == Distinct(Pushes(rows, col))
  {
    uniq := [];
    var i := 0;
    while i < |rows|
      invariant 0 <= i <= |rows|
      invariant uniq == Distinct(Pushes(rows[..i], col))
    {
      var pushed := Pushes(rows[..i], col);
      assert rows[..i + 1][..i] == rows[..i];
      assert Pushes(rows[..i + 1], col) == pushed + Pushed(rows[i], col);
      var r := rows[i];
      if col.Some? && col.value in r {
        var s := r[col.value];
        if !AllWhitespace(s) {
          if s !in uniq {
            uniq := uniq + [s];
          }
        }
      }
      assert pushed + [] == pushed;
      i := i + 1;
    }
    assert rows[..i] == rows;
  }

  // ----- The query -----

  /** `/[\s:"]/.test(v)`. */
  predicate NeedsQuotes(v: string) {
    exists i :: 0 <= i < |v| && (IsWhitespace(v[i]) || v[i] == ':' || v[i] == '"')
  }

  /** `v.replace(/"/g, '\\"')`: a backslash before every double quote. */
  function EscapeQuotes(v: string): (r: string)
    ensures |r| >= |v|
    decreases |v|
  {
    if v == [] then [] else (if v[0] == '"' then "\\\"" else [v[0]]) + EscapeQuotes(v[1..])
  }

  /** `quoteIfNeeded`: a value with whitespace, a colon or a quote is quoted with its quotes escaped. */
  function QuoteIfNeeded(v: string): (r: string)
    ensures !NeedsQuotes(v) ==> r == v
  {
    if NeedsQuotes(v) then "\"" + EscapeQuotes(v) + "\"" else v
  }

  /** A criterion as `addCriterion` stores it: the operator is the one placed before it. */
  datatype Criterion = Criterion(key: string, value: string, op: Op)

  function Token(c: Criterion): string {
    c.key + ":" + QuoteIfNeeded(c.value)
  }

  /** The parts every criterion after the first adds: its operator, then its token. */
  function LaterParts(cs: seq<Criterion>): seq<string>
    decreases |cs|
  {
    if cs == [] then [] else [OpText(cs[0].op), Token(cs[0])] + LaterParts(cs[1..])
  }

  /** `parts` after the `forEach`: the first token alone, then each later operator and token. */
  function Parts(cs: seq<Criterion>): seq<string> {
    if cs == [] then [] else [Token(cs[0])] + LaterParts(cs[1..])
  }

  /** `builtQuery`. */
  function BuiltQuery(cs: seq<Criterion>): string {
    Join(Parts(cs), " ")
  }

  /** The text the later criteria add, each as ` OP key:value`. */
  function LaterText(cs: seq<Criterion>): string
    decreases |cs|
  {
    if cs == [] then "" else " " + OpText(cs[0].op) + " " + Token(cs[0]) + LaterText(cs[1..])
  }

  /** Joining a part in front of non-empty parts puts the separator between them. */
  lemma JoinCons(p: string, ps: seq<string>, sep: string)
    requires ps != []
    ensures Join([p] + ps, sep) == p + sep + Join(ps, sep)
  {
    assert ([p] + ps)[1..] == ps;
  }

  lemma {:induction false} JoinLaterParts(t: string, cs: seq<Criterion>)
    ensures Join([t] + LaterParts(cs), " ") == t + LaterText(cs)
    decreases |cs|
  {
    if cs != [] {
      var op, tok := OpText(cs[0].op), Token(cs[0]);
      var later := LaterParts(cs[1..]);
      JoinLaterParts(tok, cs[1..]);
      assert LaterParts(cs) == [op, tok] + later;
      assert LaterText(cs) == " " + op + " " + tok + LaterText(cs[1..]);
      JoinLaterStep(t, op, tok, later, LaterText(cs[1..]));
    }
  }

  /** One criterion's operator and token joined behind `t`. */
  lemma JoinLaterStep(t: string, op: string, tok: string, later: seq<string>, restText: string)
    requires Join([tok] + later, " ") == tok + restText
    ensures Join([t] + ([op, tok] + later), " ") == t + (" " + op + " " + tok + restText)
  {
    JoinCons(t, [op, tok] + later, " ");
    assert [op, tok] + later == [op] + ([tok] + later);
    JoinCons(op, [tok] + later, " ");
    SpacedAssoc(t, op, tok, restText);
  }

  lemma SpacedAssoc(t: string, op: string, tok: string, rest: string)
    ensures t + " " + (op + " " + (tok + rest)) == t + (" " + op + " " + tok + rest)
  {
  }

  /** The query is the first token followed by ` OP key:value` for each later criterion. */
  lemma BuiltQueryShape(cs: seq<Criterion>)
    requires cs != []
    ensures BuiltQuery(cs) == Token(cs[0]) + LaterText(cs[1..])
  {
    JoinLaterParts(Token(cs[0]), cs[1..]);
  }

  /** The trimmed query is empty exactly when there is no criterion: every token holds a colon. */
  lemma BlankQueryIffNoCriteria(cs: seq<Criterion>)
    ensures AllWhitespace(BuiltQuery(cs)) <==> cs == []
  {
    if cs != [] {
      BuiltQueryShape(cs);
      var q := BuiltQuery(cs);
      assert q[|cs[0].key|] == ':';
      assert !IsWhitespace(q[|cs[0].key|]);
    }
  }

  // ----- Reading a query back -----

  /** Reads a quoted value after its opening quote: `\"` stands for a quote, a bare quote closes it. */
  function ReadEscaped(s: string): (r: Option<(string, string)>)
    ensures r.Some? ==> |r.value.1| < |s|
    decreases |s|
  {
    if s == [] then None
    else if s[0] == '"' then Some(([], s[1..]))
    else if s[0] == '\\' && |s| >= 2 && s[1] == '"' then
      match ReadEscaped(s[2..])
      case None => None
      case Some(p) => Some(("\"" + p.0, p.1))
    else
      match ReadEscaped(s[1..])
      case None => None
      case Some(p) => Some(([s[0]] + p.0, p.1))
  }

  /** Reads an unquoted value up to the next space. */
  function ReadPlain(s: string): (r: (string, string))
    ensures |r.1| <= |s|
  {
    match IndexOf(s, ' ')
    case None => (s, "")
    case Some(i) => (s[..i], s[i..])
  }

  function ReadValue(s: string): (r: Option<(string, string)>)
    ensures r.Some? ==> |r.value.1| <= |s|
  {
    if s != [] && s[0] == '"' then ReadEscaped(s[1..]) else Some(ReadPlain(s))
  }

  /** Reads `key:value`, the key running up to the first colon. */
  function ReadCriterion(s: string, op: Op): (r: Option<(Criterion, string)>)
    ensures r.Some? ==> |r.value.1| < |s|
  {
    match IndexOf(s, ':')
    case None => None
    case Some(i) =>
      match ReadValue(s[i + 1..])
      case None => None
      case Some(p) => Some((Criterion(s[..i], p.0, op), p.1))
  }

  predicate StartsWith(s: string, prefix: string) {
    |prefix| <= |s| && s[..|prefix|] == prefix
  }

  /** Reads the later criteria, each introduced by ` AND ` or ` OR `. */
  function ReadLater(s: string): Option<seq<Criterion>>
    decreases |s|
  {
    if s == [] then Some([])
    else
      var op := if StartsWith(s, " AND ") then Some(And) else if StartsWith(s, " OR ") then Some(Or) else None;
      match op
      case None => None
      case Some(o) =>
        match ReadCriterion(s[|OpText(o)| + 2..], o)
        case None => None
        case Some(p) =>
          match ReadLater(p.1)
          case None => None
          case Some(rest) => Some([p.0] + rest)
  }

  /** A reader for the query text: the criteria in order, the first one's operator read as `AND`. */
  function ReadQuery(s: string): Option<seq<Criterion>> {
    if s == [] then Some([])
    else
      match ReadCriterion(s, And)
      case None => None
      case Some(p) =>
        match ReadLater(p.1)
        case None => None
        case Some(rest) => Some([p.0] + rest)
  }

  /** The criteria a query stands for: the first operator is never written. */
  function Canonical(cs: seq<Criterion>): seq<Criterion> {
    if cs == [] then [] else [cs[0].(op := And)] + cs[1..]
  }

  /** A criterion the query text can carry: no colon in the key, and no quoted value ending in a backslash. */
  predicate Readable(c: Criterion) {
    ':' !in c.key && (NeedsQuotes(c.value) ==> c.value[|c.value| - 1] != '\\')
  }

  /** The first occurrence of `c` in `a + b` when `a` does not hold it and `b` starts with it. */
  lemma IndexOfAt(a: string, b: string, c: char)
    requires c !in a && b != [] && b[0] == c
    ensures IndexOf(a + b, c) == Some(|a|)
  {
    var s := a + b;
    assert s[|a|] == c;
    assert s[..|a|] == a;
    assert IndexOf(s, c).Some?;
  }

  lemma {:induction false} ReadEscapedRoundTrip(v: string, rest: string)
    requires v == [] || v[|v| - 1] != '\\'
    ensures ReadEscaped(EscapeQuotes(v) + "\"" + rest) == Some((v, rest))
    decreases |v|
  {
    var s := EscapeQuotes(v) + "\"" + rest;
    if v == [] {
      assert s == "\"" + rest;
    } else {
      var tail := EscapeQuotes(v[1..]) + "\"" + rest;
      ReadEscapedRoundTrip(v[1..], rest);
      if v[0] == '"' {
        assert s == "\\\"" + tail;
        assert s[2..] == tail;
        assert "\"" + v[1..] == v;
      } else {
        assert s == [v[0]] + tail;
        assert s[1..] == tail;
        if v[0] == '\\' {
          assert |v| >= 2;
          assert tail[0] != '"' by {
            if v[1] == '"' {
              assert tail[0] == '\\';
            } else {
              assert tail[0] == v[1];
            }
          }
        }
        assert [v[0]] + v[1..] == v;
      }
    }
  }

  lemma ReadValueRoundTrip(v: string, rest: string)
    requires NeedsQuotes(v) ==> v[|v| - 1] != '\\'
    requires rest == [] || rest[0] == ' '
    ensures ReadValue(QuoteIfNeeded(v) + rest) == Some((v, rest))
  {
    if NeedsQuotes(v) {
      ReadQuotedRoundTrip(v, rest);
    } else {
      ReadPlainRoundTrip(v, rest);
    }
  }

  lemma ReadQuotedRoundTrip(v: string, rest: string)
    requires NeedsQuotes(v) && v[|v| - 1] != '\\'
    ensures ReadValue(QuoteIfNeeded(v) + rest) == Some((v, rest))
  {
    var inner := EscapeQuotes(v) + "\"" + rest;
    assert QuoteIfNeeded(v) + rest == "\"" + inner;
    ReadValueOpens(inner);
    ReadEscapedRoundTrip(v, rest);
  }

  lemma ReadPlainRoundTrip(v: string, rest: string)
    requires !NeedsQuotes(v)
    requires rest == [] || rest[0] == ' '
    ensures ReadValue(QuoteIfNeeded(v) + rest) == Some((v, rest))
  {
    var s := v + rest;
    assert ' ' !in v && '"' !in v;
    if v != [] {
      assert s[0] == v[0];
    }
    if rest == [] {
      assert s == v;
    } else {
      IndexOfAt(v, rest, ' ');
      assert s[..|v|] == v && s[|v|..] == rest;
    }
  }

  lemma ReadCriterionRoundTrip(c: Criterion, op: Op, rest: string)
    requires Readable(c)
    requires rest == [] || rest[0] == ' '
    ensures ReadCriterion(Token(c) + rest, op) == Some((Criterion(c.key, c.value, op), rest))
  {
    var t := QuoteIfNeeded(c.value) + rest;
    assert Token(c) + rest == c.key + ":" + t;
    ReadValueRoundTrip(c.value, rest);
    ReadCriterionAt(c.key, t, op, c.value, rest);
  }

  /** A colon-free key, a colon, and text that reads as a value read as one criterion. */
  lemma ReadCriterionAt(key: string, t: string, op: Op, v: string, rest: string)
    requires ':' !in key
    requires ReadValue(t) == Some((v, rest))
    ensures ReadCriterion(key + ":" + t, op) == Some((Criterion(key, v, op), rest))
  {
    var s := key + ":" + t;
    assert s == key + (":" + t);
    IndexOfAt(key, ":" + t, ':');
    assert s[|key| + 1..] == t;
    assert s[..|key|] == key;
  }

  /** The operator word picks its branch of the reader, which then goes on after the word and its spaces. */
  lemma OperatorSelects(o: Op, tok: string, rest: string)
    ensures var s := " " + OpText(o) + " " + tok + rest;
      && (o == And <==> StartsWith(s, " AND "))
      && (o == Or ==> StartsWith(s, " OR "))
      && s[|OpText(o)| + 2..] == tok + rest
  {
    var s := " " + OpText(o) + " " + tok + rest;
    assert s == " " + OpText(o) + " " + (tok + rest);
    if o == Or {
      assert s[1] == 'O';
    }
  }

  /** One step of the later-criteria reader: the operator word, one criterion, then the rest. */
  lemma ReadLaterStep(s: string, o: Op, c: Criterion, after: string, rest: seq<Criterion>)
    requires |OpText(o)| + 2 <= |s|
    requires (o == And <==> StartsWith(s, " AND ")) && (o == Or ==> StartsWith(s, " OR "))
    requires ReadCriterion(s[|OpText(o)| + 2..], o) == Some((c, after))
    requires ReadLater(after) == Some(rest)
    ensures ReadLater(s) == Some([c] + rest)
  {
  }

  /** A readable criterion in front of text the reader reads back is read back too. */
  lemma ReadLaterCons(c: Criterion, tail: seq<Criterion>)
    requires Readable(c)
    requires ReadLater(LaterText(tail)) == Some(tail)
    ensures ReadLater(LaterText([c] + tail)) == Some([c] + tail)
  {
    var after := LaterText(tail);
    var s := " " + OpText(c.op) + " " + Token(c) + after;
    assert ([c] + tail)[0] == c && ([c] + tail)[1..] == tail;
    assert LaterText([c] + tail) == s;
    assert after == [] || after[0] == ' ';
    OperatorSelects(c.op, Token(c), after);
    ReadCriterionRoundTrip(c, c.op, after);
    ReadLaterStep(s, c.op, c, after, tail);
  }

  lemma {:induction false} ReadLaterRoundTrip(cs: seq<Criterion>)
    requires forall k :: 0 <= k < |cs| ==> Readable(cs[k])
    ensures ReadLater(LaterText(cs)) == Some(cs)
    decreases |cs|
  {
    if cs != [] {
      ReadLaterRoundTrip(cs[1..]);
      ReadLaterCons(cs[0], cs[1..]);
      assert [cs[0]] + cs[1..] == cs;
    }
  }

  /**
   * Read back, the query gives every criterion with its key, value and operator,
   * the first operator as `AND`, provided no key holds a colon and no quoted value
   * ends in a backslash.
   */
  lemma BuiltQueryReadsBack(cs: seq<Criterion>)
    requires forall k :: 0 <= k < |cs| ==> Readable(cs[k])
    ensures ReadQuery(BuiltQuery(cs)) == Some(Canonical(cs))
  {
    if cs != [] {
      BuiltQueryShape(cs);
      var after := LaterText(cs[1..]);
      assert after == [] || after[0] == ' ';
      ReadCriterionRoundTrip(cs[0], And, after);
      ReadLaterRoundTrip(cs[1..]);
      assert Token(cs[0]) != [];
    }
  }

  /**
   * A quoted value ending in a backslash does not read back: `k:"a b\"` leaves
   * the closing quote escaped and the value open.
   */
  lemma TrailingBackslashBreaksReading()
    ensures ReadQuery(BuiltQuery([Criterion("k", " \\", And)])) == None
  {
    var v := " \\";
    var t := "\"" + v + "\"";
    BackslashValueText(v);
    assert v + "\"" == " \\\"";
    assert t == "\"" + (v + "\"");
    ReadValueOpens(v + "\"");
    EscapedOpenAtEnd();
    ReadCriterionFails("k", t, And);
  }

  /** The query of the one criterion `k` with value ` \\`. */
  lemma BackslashValueText(v: string)
    requires v == " \\"
    ensures BuiltQuery([Criterion("k", v, And)]) == "k" + ":" + ("\"" + v + "\"")
  {
    assert NeedsQuotes(v) by {
      assert IsWhitespace(v[0]);
    }
    assert EscapeQuotes(v) == v by {
      assert v[1..][1..] == [];
      assert EscapeQuotes(v[1..]) == [v[1]];
      assert [v[0]] + [v[1]] == v;
    }
  }

  /** An opening quote hands the rest of the value to the escaped reader. */
  lemma ReadValueOpens(inner: string)
    ensures ReadValue("\"" + inner) == ReadEscaped(inner)
  {
    assert ("\"" + inner)[1..] == inner;
  }

  /** A colon-free key and a colon followed by text that is no value read as nothing. */
  lemma ReadCriterionFails(key: string, t: string, op: Op)
    requires ':' !in key
    requires ReadValue(t) == None
    ensures ReadCriterion(key + ":" + t, op) == None
  {
    var s := key + ":" + t;
    assert s == key + (":" + t);
    IndexOfAt(key, ":" + t, ':');
    assert s[|key| + 1..] == t;
  }


  /** `\"` right before the end is an escaped quote, so the value never closes. */
  lemma EscapedOpenAtEnd()
    ensures ReadEscaped(" \\\"") == None
  {
    assert " \\\""[1..] == "\\\"";
    assert "\\\""[2..] == [];
  }

  // ----- Criteria -----

  /** No two criteria share both key and value. */
  predicate NoDuplicatePairs(cs: seq<Criterion>) {
    forall i, j :: 0 <= i < j < |cs| ==> !(cs[i].key == cs[j].key && cs[i].value == cs[j].value)
  }

  /** `criteria().some(c => c.key === key && c.value === value)`. */
  predicate HasPair(cs: seq<Criterion>, key: string, value: string) {
    exists i :: 0 <= i < |cs| && cs[i].key == key && cs[i].value == value
  }

  // ----- Messages -----

  const EnterNameMessage := "Please enter a name."
  const AddCriterionMessage := "Please add at least one criterion."
  const SaveFailedMessage := "Save failed"

  /** The outcome of the store call. */
  datatype SaveOutcome = SaveSucceeded | SaveFailed(detail: string)

  class SearchComponent {
    var domain: Domain
    var fieldKey: string
    var fieldValues: seq<string>
    var selectedValue: string
    var nextOp: Op
    var criteria: seq<Criterion>
    var saveName: string
    var error: Option<string>
    var savedOk: bool
    /** The master rows the value lists are drawn from, as loaded. */
    var products: seq<RawRow>
    var channels: seq<RawRow>
    var locations: seq<RawRow>
    /** The field registry the selectors offer. */
    const fields: seq<FieldOption>

    /** The criteria never hold the same key and value twice. */
    ghost predicate Valid()
      reads this
    {
      NoDuplicatePairs(criteria)
    }

    constructor ()
      ensures Valid()
      ensures domain == ProductDomain && fieldKey == "businessunit"
      ensures fieldValues == [] && selectedValue == "" && nextOp == And && criteria == []
      ensures saveName == "" && error == None && !savedOk
      ensures products == [] && channels == [] && locations == []
      ensures fields == Fields
    {
      fields := Fields;
      domain := ProductDomain;
      fieldKey := "businessunit";
      fieldValues := [];
      selectedValue := "";
      nextOp := And;
      criteria := [];
      saveName := "";
      error := None;
      savedOk := false;
      products := [];
      channels := [];
      locations := [];
    }

    /** The rows of a domain. */
    function RowsOf(dom: Domain): seq<RawRow>
      reads this`products, this`channels, this`locations
    {
      match dom case ProductDomain => products case ChannelDomain => channels case LocationDomain => locations
    }

    /** The row field the selected key reads in the selected domain. */
    function SelectedColumn(): Option<string>
      reads this`domain, this`fieldKey
    {
      ColumnFor(domain, fieldKey)
    }

    /**
     * `refreshFieldValues`: collect the distinct non-blank values of the
     * selected field over the selected domain's rows, sort them, and select
     * the first (or nothing).
     */
    method RefreshFieldValues()
      modifies this`fieldValues, this`selectedValue
      ensures fieldValues == FieldValues(RowsOf(domain), SelectedColumn())
      ensures selectedValue == if fieldValues == [] then "" else fieldValues[0]
    {
      var rows, col := RowsOf(domain), SelectedColumn();
      var uniq := CollectValues(rows, col);
      var arr := Sorting.SortBy(uniq, Identity, true);
      assert arr == FieldValues(rows, col);
      fieldValues := arr;
      selectedValue := if |arr| > 0 then arr[0] else "";
      assert rows == RowsOf(domain) && col == SelectedColumn();
    }

    /** `onDomainChange`: switch domain, select its first field, and refresh the values. */
    method OnDomainChange(newDom: Domain)
      modifies this`domain, this`fieldKey, this`fieldValues, this`selectedValue
      ensures domain == newDom && fieldKey == FirstKeyIn(fields, newDom)
      ensures fieldValues == FieldValues(RowsOf(domain), SelectedColumn())
      ensures selectedValue == if fieldValues == [] then "" else fieldValues[0]
    {
      domain := newDom;
      fieldKey := FirstKeyIn(fields, newDom);
      RefreshFieldValues();
    }

    /** `onFieldChange`: select the field and refresh the values. */
    method OnFieldChange(newKey: string)
      modifies this`fieldKey, this`fieldValues, this`selectedValue
      ensures fieldKey == newKey
      ensures fieldValues == FieldValues(RowsOf(domain), SelectedColumn())
      ensures selectedValue == if fieldValues == [] then "" else fieldValues[0]
    {
      fieldKey := newKey;
      RefreshFieldValues();
    }

    /** A master-data load's handler: store the rows and refresh the values. */
    method OnRowsLoaded(dom: Domain, rows: seq<RawRow>)
      modifies this`products, this`channels, this`locations, this`fieldValues, this`selectedValue
      ensures RowsOf(dom) == rows
      ensures forall d :: d != dom ==> RowsOf(d) == old(RowsOf(d))
      ensures fieldValues == FieldValues(RowsOf(domain), SelectedColumn())
      ensures selectedValue == if fieldValues == [] then "" else fieldValues[0]
    {
      match dom {
        case ProductDomain => products := rows;
        case ChannelDomain => channels := rows;
        case LocationDomain => locations := rows;
      }
      RefreshFieldValues();
    }

    /**
     * `addCriterion`: nothing without a key or a non-blank value; otherwise the
     * trimmed value is appended with the next operator, unless that key and value
     * are already there.
     */
    method AddCriterion()
      requires Valid()
      modifies this`criteria
      ensures Valid()
      ensures var value := Trim(selectedValue);
        criteria == if fieldKey == "" || value == "" || HasPair(old(criteria), fieldKey, value) then old(criteria)
                    else old(criteria) + [Criterion(fieldKey, value, nextOp)]
    {
      var key := fieldKey;
      var value := Trim(selectedValue);
      if key == "" || value == "" {
        return;
      }
      var exists_ := HasPair(criteria, key, value);
      if !exists_ {
        criteria := criteria + [Criterion(key, value, nextOp)];
        assert NoDuplicatePairs(criteria) by {
          forall i, j | 0 <= i < j < |criteria|
            ensures !(criteria[i].key == criteria[j].key && criteria[i].value == criteria[j].value)
          {
            if j == |criteria| - 1 {
              assert criteria[i] == old(criteria)[i];
            }
          }
        }
      }
    }

    /** `removeCriterion`: drop the entry at `i`, keeping the others in order; any other index changes nothing. */
    method RemoveCriterion(i: int)
      requires Valid()
      modifies this`criteria
      ensures Valid()
      ensures 0 <= i < |old(criteria)| ==> criteria == old(criteria)[..i] + old(criteria)[i + 1..]
      ensures !(0 <= i < |old(criteria)|) ==> criteria == old(criteria)
    {
      if 0 <= i < |criteria| {
        criteria := criteria[..i] + criteria[i + 1..];
        assert NoDuplicatePairs(criteria) by {
          forall a, b | 0 <= a < b < |criteria|
            ensures !(criteria[a].key == criteria[b].key && criteria[a].value == criteria[b].value)
          {
            var a' := if a < i then a else a + 1;
            var b' := if b < i then b else b + 1;
            assert criteria[a] == old(criteria)[a'] && criteria[b] == old(criteria)[b'];
          }
        }
      }
    }

    /** `setOp`: the entry at `i` takes the operator; keys, values and the other entries stay. */
    method SetOp(i: int, op: Op)
      requires Valid()
      modifies this`criteria
      ensures Valid()
      ensures |criteria| == |old(criteria)|
      ensures forall k :: 0 <= k < |criteria| ==>
        criteria[k] == if k == i then old(criteria)[k].(op := op) else old(criteria)[k]
    {
      if 0 <= i < |criteria| {
        criteria := criteria[i := criteria[i].(op := op)];
      }
    }

    /**
     * `save`: a blank name is refused first, then a blank query (no criteria);
     * otherwise the trimmed name and query go to the store, and its outcome sets
     * the success flag or the error text.
     */
    method Save(outcome: SaveOutcome) returns (request: Option<SavedSearch>)
      modifies this`error, this`savedOk
      ensures AllWhitespace(saveName) ==> request.None? && error == Some(EnterNameMessage) && !savedOk
      ensures !AllWhitespace(saveName) && criteria == [] ==>
        request.None? && error == Some(AddCriterionMessage) && !savedOk
      ensures !AllWhitespace(saveName) && criteria != [] ==>
        && request == Some(SavedSearch(Trim(saveName), Trim(BuiltQuery(criteria))))
        && (outcome.SaveSucceeded? ==> savedOk && error == None)
        && (outcome.SaveFailed? ==> !savedOk && error == Some(ErrorText(outcome.detail, SaveFailedMessage)))
    {
      error := None;
      savedOk := false;
      var name := Trim(saveName);
      var query := Trim(BuiltQuery(criteria));
      if name == "" {
        error := Some(EnterNameMessage);
        return None;
      }
      BlankQueryIffNoCriteria(criteria);
      if query == "" {
        error := Some(AddCriterionMessage);
        return None;
      }
      request := Some(SavedSearch(name, query));
      match outcome
      case SaveSucceeded => savedOk := true;
      case SaveFailed(detail) => error := Some(ErrorText(detail, SaveFailedMessage));
    }
  }
}
