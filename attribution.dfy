/**
 * Marketing attribution: the UTM parameters and advertising click ids found
 * in the query of a page URL. Two variants exist: the one the client uses
 * puts a `$` before every key (`src/utils/marketingAttribution.ts`), the
 * other keeps the parameter names (`src/utils/getMarketingAttribution.ts`).
 *
 * `URLSearchParams` is modelled as splitting the query on `&`, skipping empty
 * pieces and cutting each piece at its first `=`; the percent-decoding it
 * applies to names and values is a given function `decode`.
 */
module Attribution {
  import opened Values
  import opened Strings

  const UTM_PARAMS: seq<string> := ["utm_source", "utm_medium", "utm_campaign", "utm_term", "utm_content"]

  const CLICK_ID_PARAMS: seq<string> := [
    "dclid", "fbclid", "gbraid", "gclid", "ko_click_id", "li_fat_id",
    "msclkid", "rtd_cid", "ttclid", "twclid", "wbraid"]

  /** `url.split('?')[1]`: the text between the first and the second `?`,
      or `undefined` when there is no `?`. */
  function QueryString(url: string): (q: Option<string>)
    ensures q.None? <==> '?' !in url
  {
    var parts := Split(url, '?');
    if |parts| >= 2 then Some(parts[1])
    else
      assert '?' !in url by {
        JoinSplit(url, '?');
        assert Join(parts, '?') == parts[0];
      }
      None
  }

  /** One `name=value` piece; a piece with no `=` has an empty value. */
  function ParsePair(piece: string, decode: string -> string): (string, string) {
    if '=' in piece then
      var i := IndexOf(piece, '=');
      (decode(piece[..i]), decode(piece[i + 1..]))
    else (decode(piece), "")
  }

  function ParsePairs(pieces: seq<string>, decode: string -> string): seq<(string, string)> {
    if pieces == [] then []
    else if pieces[0] == "" then ParsePairs(pieces[1..], decode)
    else [ParsePair(pieces[0], decode)] + ParsePairs(pieces[1..], decode)
  }

  /** `new URLSearchParams(query).entries()`, with no entries for `undefined`. */
  function SearchParams(url: string, decode: string -> string): seq<(string, string)> {
    match QueryString(url)
    case None => []
    case Some(q) => ParsePairs(Split(q, '&'), decode)
  }

  /** `.filter(([key]) => params.includes(key))`. */
  function Keep(entries: seq<(string, string)>, params: seq<string>): seq<(string, string)> {
    if entries == [] then []
    else
      var last := entries[|entries| - 1];
      Keep(entries[..|entries| - 1], params) + (if last.0 in params then [last] else [])
  }

  function Dollar(key: string): string {
    "$" + key
  }

  /** `.map(([key, value]) => ['$' + key, value])`. */
  function AddDollar(entries: seq<(string, string)>): (r: seq<(string, string)>)
    ensures |r| == |entries|
    ensures forall i :: 0 <= i < |entries| ==>
      |r[i].0| == |entries[i].0| + 1 && r[i].0[0] == '$' && r[i].0[1..] == entries[i].0 && r[i].1 == entries[i].1
  {
    seq(|entries|, i requires 0 <= i < |entries| => (Dollar(entries[i].0), entries[i].1))
  }

  /** `getPropertiesFromQueryParams`. */
  function PropertiesFromQueryParams(url: string, params: seq<string>, decode: string -> string): map<string, string> {
    FromEntries(AddDollar(Keep(SearchParams(url, decode), params)))
  }

  /** `getMarketingAttributionParameters`, the `$`-prefixed variant the client uses. */
  function MarketingAttributionParameters(url: string, decode: string -> string): map<string, string> {
    PropertiesFromQueryParams(url, UTM_PARAMS, decode) + PropertiesFromQueryParams(url, CLICK_ID_PARAMS, decode)
  }

  /** `getQueryParams`. */
  function QueryParams(url: string, params: seq<string>, decode: string -> string): map<string, string> {
    FromEntries(Keep(SearchParams(url, decode), params))
  }

  /** `getMarketingAttributionParameters`, the variant that keeps the names. */
  function UnprefixedMarketingAttributionParameters(url: string, decode: string -> string): map<string, string> {
    QueryParams(url, UTM_PARAMS, decode) + QueryParams(url, CLICK_ID_PARAMS, decode)
  }

  predicate Listed(p: string) {
    p in UTM_PARAMS || p in CLICK_ID_PARAMS
  }

  /** Filtering the entries by name, then building the object, is building the
      object and keeping the listed names. */
  lemma {:induction false} KeepRestricts(entries: seq<(string, string)>, params: seq<string>)
    ensures forall k :: k in FromEntries(Keep(entries, params)) <==> k in FromEntries(entries) && k in params
    ensures forall k :: k in FromEntries(Keep(entries, params)) ==>
      FromEntries(Keep(entries, params))[k] == FromEntries(entries)[k]
  {
    if entries != [] {
      var prefix := entries[..|entries| - 1];
      var last := entries[|entries| - 1];
      KeepRestricts(prefix, params);
      assert FromEntries(entries) == FromEntries(prefix)[last.0 := last.1];
      if last.0 in params {
        FromEntriesSnoc(Keep(prefix, params), last);
      } else {
        assert Keep(entries, params) == Keep(prefix, params);
      }
    }
  }

  lemma DollarInjective(a: string, b: string)
    ensures Dollar(a) == Dollar(b) ==> a == b
  {
    if Dollar(a) == Dollar(b) {
      assert a == Dollar(a)[1..] && b == Dollar(b)[1..];
    }
  }

  /** The keys of the prefixed object are exactly the prefixed keys. */
  lemma AddDollarKeys(entries: seq<(string, string)>)
    ensures forall k :: Dollar(k) in FromEntries(AddDollar(entries)) <==> k in FromEntries(entries)
    ensures forall k :: k in FromEntries(AddDollar(entries)) ==> exists p :: k == Dollar(p)
  {
    var r := AddDollar(entries);
    forall k ensures Dollar(k) in FromEntries(r) <==> k in FromEntries(entries) {
      if Dollar(k) in FromEntries(r) {
        var i :| 0 <= i < |r| && r[i].0 == Dollar(k);
        DollarInjective(k, entries[i].0);
      }
      if k in FromEntries(entries) {
        var i :| 0 <= i < |entries| && entries[i].0 == k;
        assert r[i].0 == Dollar(k);
      }
    }
    forall k | k in FromEntries(r) ensures exists p :: k == Dollar(p) {
      var i :| 0 <= i < |r| && r[i].0 == k;
      assert k == Dollar(entries[i].0);
    }
  }

  /** A prefixed key holds the value its unprefixed key holds. */
  lemma {:induction false} AddDollarValue(entries: seq<(string, string)>, k: string)
    requires k in FromEntries(entries)
    ensures Dollar(k) in FromEntries(AddDollar(entries))
    ensures FromEntries(AddDollar(entries))[Dollar(k)] == FromEntries(entries)[k]
  {
    var prefix := entries[..|entries| - 1];
    var last := entries[|entries| - 1];
    assert AddDollar(entries) == AddDollar(prefix) + [(Dollar(last.0), last.1)];
    FromEntriesSnoc(AddDollar(prefix), (Dollar(last.0), last.1));
    assert FromEntries(entries) == FromEntries(prefix)[last.0 := last.1];
    if k != last.0 {
      DollarInjective(k, last.0);
      AddDollarValue(prefix, k);
    }
  }

  /** Prefixing every name with `$` renames the keys of the object and keeps
      the values. */
  lemma AddDollarRenames(entries: seq<(string, string)>)
    ensures forall k :: Dollar(k) in FromEntries(AddDollar(entries)) <==> k in FromEntries(entries)
    ensures forall k :: k in FromEntries(entries) ==>
      FromEntries(AddDollar(entries))[Dollar(k)] == FromEntries(entries)[k]
    ensures forall k :: k in FromEntries(AddDollar(entries)) ==> exists p :: k == Dollar(p)
  {
    AddDollarKeys(entries);
    forall k | k in FromEntries(entries)
      ensures FromEntries(AddDollar(entries))[Dollar(k)] == FromEntries(entries)[k]
    {
      AddDollarValue(entries, k);
    }
  }

  /** What one variant of `getPropertiesFromQueryParams` yields: a `$`-name
      for each listed parameter present in the query, with the value the
      query's object holds for it. */
  lemma PropertiesFromQuery(url: string, params: seq<string>, decode: string -> string)
    ensures var m := PropertiesFromQueryParams(url, params, decode);
      var all := FromEntries(SearchParams(url, decode));
      (forall p :: Dollar(p) in m <==> p in params && p in all) &&
      (forall p :: Dollar(p) in m ==> m[Dollar(p)] == all[p]) &&
      (forall k :: k in m ==> exists p :: k == Dollar(p))
  {
    KeepRestricts(SearchParams(url, decode), params);
    AddDollarRenames(Keep(SearchParams(url, decode), params));
  }

  /** The attribution properties are exactly the `$`-names of the UTM and
      click-id parameters present in the query, each with the query's value;
      any other parameter is dropped. */
  lemma MarketingAttributionKeys(url: string, decode: string -> string)
    ensures var m := MarketingAttributionParameters(url, decode);
      var all := FromEntries(SearchParams(url, decode));
      (forall p :: Dollar(p) in m <==> Listed(p) && p in all) &&
      (forall p :: Dollar(p) in m ==> m[Dollar(p)] == all[p]) &&
      (forall k :: k in m ==> exists p :: k == Dollar(p))
  {
    PropertiesFromQuery(url, UTM_PARAMS, decode);
    PropertiesFromQuery(url, CLICK_ID_PARAMS, decode);
  }

  /** The unprefixed variant keeps exactly the listed parameters present in
      the query, each with the query's value. */
  lemma UnprefixedKeys(url: string, decode: string -> string)
    ensures var u := UnprefixedMarketingAttributionParameters(url, decode);
      var all := FromEntries(SearchParams(url, decode));
      (forall p :: p in u <==> Listed(p) && p in all) &&
      (forall p :: p in u ==> u[p] == all[p])
  {
    KeepRestricts(SearchParams(url, decode), UTM_PARAMS);
    KeepRestricts(SearchParams(url, decode), CLICK_ID_PARAMS);
  }

  /** For the same URL, the two variants agree up to the `$` before each key. */
  lemma PrefixedMatchesUnprefixed(url: string, decode: string -> string)
    ensures var m := MarketingAttributionParameters(url, decode);
      var u := UnprefixedMarketingAttributionParameters(url, decode);
      (forall p :: Dollar(p) in m <==> p in u) &&
      (forall p :: p in u ==> m[Dollar(p)] == u[p]) &&
      (forall k :: k in m ==> exists p :: k == Dollar(p))
  {
    MarketingAttributionKeys(url, decode);
    UnprefixedKeys(url, decode);
  }

  /** A repeated parameter takes the value of its last occurrence. */
  lemma LastOccurrenceWins(url: string, decode: string -> string, p: string, i: int)
    requires Listed(p) && IsLastWithKey(SearchParams(url, decode), p, i)
    ensures Dollar(p) in MarketingAttributionParameters(url, decode)
    ensures MarketingAttributionParameters(url, decode)[Dollar(p)] == SearchParams(url, decode)[i].1
  {
    FromEntriesLastWins(SearchParams(url, decode), p, i);
    MarketingAttributionKeys(url, decode);
  }

  /** A URL with no `?` yields no attribution properties. */
  lemma NoQueryNoAttribution(url: string, decode: string -> string)
    requires '?' !in url
    ensures MarketingAttributionParameters(url, decode) == map[]
    ensures UnprefixedMarketingAttributionParameters(url, decode) == map[]
  {
  }

  /** The first `?`-separated part of `query + rest`, where `rest` is empty
      or starts with `?`, is `query`. */
  lemma FirstPartOfTail(query: string, rest: string)
    requires '?' !in query
    requires rest == [] || rest[0] == '?'
    ensures Split(query + rest, '?')[0] == query
  {
    if rest == [] {
      assert query + rest == query;
    } else {
      assert query + rest == query + ['?'] + rest[1..];
      SplitAtFirst(query, '?', rest[1..]);
    }
  }

  /** Only the text between the first and the second `?` is read: whatever
      follows a second `?` is ignored. */
  lemma OnlyFirstQueryIsRead(path: string, query: string, rest: string)
    requires '?' !in path && '?' !in query
    requires rest == [] || rest[0] == '?'
    ensures QueryString(path + "?" + query + rest) == Some(query)
  {
    var url := path + "?" + query + rest;
    assert url == path + ['?'] + (query + rest);
    SplitAtFirst(path, '?', query + rest);
    FirstPartOfTail(query, rest);
    assert Split(url, '?')[1] == query;
  }

}
