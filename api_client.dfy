/**
 * The URL that `apiClient.get(endpoint, params)` requests
 * (frontend/src/config/apiClient.js): the base URL and the endpoint, then, when
 * some parameter has a value, `?` and the `key=value` pairs joined by `&`.
 *
 * `params` is a list of entries in the order `Object.keys` yields them. A value
 * is `undefined`, `null`, or present, in which case it is given as the text the
 * template literal would produce. `encodeURIComponent` is the parameter `enc`.
 */
module ApiClient {
  import opened Wrappers

  datatype ParamValue = Undefined | Null | Given(text: string)

  /** One parameter: its key and its value. */
  datatype Param = Param(key: string, value: ParamValue)

  /** The callback of `.map(...)`: `enc(key)=enc(value)` for a value, `null` for `undefined` or `null`. */
  function Entry(p: Param, enc: string -> string): (r: Option<string>)
    ensures r.Some? <==> p.value.Given?
  {
    if p.value != Undefined && p.value != Null then Some(enc(p.key) + "=" + enc(p.value.text)) else None
  }

  /** `Object.keys(params).map(...)`. */
  function Entries(params: seq<Param>, enc: string -> string): (r: seq<Option<string>>)
    ensures |r| == |params|
    ensures forall i | 0 <= i < |params| :: r[i] == Entry(params[i], enc)
  {
    seq(|params|, i requires 0 <= i < |params| => Entry(params[i], enc))
  }

  /** `.filter(Boolean)`: `null` and `''` are dropped, the other texts kept in order. */
  function Truthy(entries: seq<Option<string>>): seq<string>
    decreases |entries|
  {
    if entries == [] then []
    else if entries[0].Some? && entries[0].value != "" then [entries[0].value] + Truthy(entries[1..])
    else Truthy(entries[1..])
  }

  /** `.join(sep)`. */
  function Join(parts: seq<string>, sep: char): string
    decreases |parts|
  {
    if parts == [] then ""
    else if |parts| == 1 then parts[0]
    else parts[0] + [sep] + Join(parts[1..], sep)
  }

  /** The query string of `get`. */
  function QueryString(params: seq<Param>, enc: string -> string): string {
    Join(Truthy(Entries(params, enc)), '&')
  }

  /** `get`'s URL: the query string is appended, after `?`, only when it is not empty. */
  function BuildUrl(baseUrl: string, endpoint: string, params: seq<Param>, enc: string -> string): (url: string)
    ensures params == [] ==> url == baseUrl + endpoint
    ensures !HasValue(params) ==> url == baseUrl + endpoint
    ensures HasValue(params) ==> url == baseUrl + endpoint + "?" + Join(Pairs(params, enc), '&')
  {
    QueryPairs(params, enc);
    PairsNonEmpty(params, enc);
    JoinEmptyIff(Pairs(params, enc), '&');
    var url := baseUrl + endpoint;
    if |params| > 0 then
      var queryString := QueryString(params, enc);
      if queryString != "" then url + "?" + queryString else url
    else url
  }

  // ---------------------------------------------------------------------------
  // A direct description of the pairs

  /** Some parameter has a value other than `undefined` and `null`. */
  predicate HasValue(params: seq<Param>) {
    exists i | 0 <= i < |params| :: params[i].value.Given?
  }

  /** The pairs of the parameters that have a value, in order: the reference for the map-and-filter chain. */
  function Pairs(params: seq<Param>, enc: string -> string): (r: seq<string>)
    ensures |r| <= |params|
    ensures (forall i | 0 <= i < |params| :: params[i].value.Given?) ==> |r| == |params|
    ensures (forall i | 0 <= i < |params| :: !params[i].value.Given?) ==> r == []
    ensures |params| > 0 && params[0].value.Given? ==> |r| > 0 && r[0] == enc(params[0].key) + "=" + enc(params[0].value.text)
    decreases |params|
  {
    if params == [] then []
    else if params[0].value.Given? then [enc(params[0].key) + "=" + enc(params[0].value.text)] + Pairs(params[1..], enc)
    else Pairs(params[1..], enc)
  }

  /** Mapping then dropping falsy entries gives exactly the pairs of the parameters that have a value. */
  lemma {:induction false} QueryPairs(params: seq<Param>, enc: string -> string)
    ensures Truthy(Entries(params, enc)) == Pairs(params, enc)
    decreases |params|
  {
    if params != [] {
      QueryPairs(params[1..], enc);
      assert Entries(params, enc)[1..] == Entries(params[1..], enc);
    }
  }

  /** Every pair is non-empty, and there is one exactly when some parameter has a value. */
  lemma {:induction false} PairsNonEmpty(params: seq<Param>, enc: string -> string)
    ensures forall k | 0 <= k < |Pairs(params, enc)| :: Pairs(params, enc)[k] != ""
    ensures Pairs(params, enc) != [] <==> HasValue(params)
    decreases |params|
  {
    if params != [] {
      PairsNonEmpty(params[1..], enc);
      if HasValue(params[1..]) {
        var i :| 0 <= i < |params[1..]| && params[1..][i].value.Given?;
        assert params[i + 1].value.Given?;
      }
      if HasValue(params) && !params[0].value.Given? {
        var i :| 0 <= i < |params| && params[i].value.Given?;
        assert params[1..][i - 1].value.Given?;
      }
    }
  }

  /** A join of non-empty parts is empty exactly when there are no parts. */
  lemma JoinEmptyIff(parts: seq<string>, sep: char)
    requires forall k | 0 <= k < |parts| :: parts[k] != ""
    ensures Join(parts, sep) == "" <==> parts == []
  {
    if |parts| > 1 {
      assert |Join(parts, sep)| >= |parts[0]|;
    }
  }

  // ---------------------------------------------------------------------------
  // Reading the query string back

  /** `s.split(sep)`. */
  function Split(s: string, sep: char): (r: seq<string>)
    ensures |r| > 0
    decreases |s|
  {
    if s == [] then [""]
    else
      var rest := Split(s[1..], sep);
      if s[0] == sep then [""] + rest
      else [[s[0]] + rest[0]] + rest[1..]
  }

  /** A text without the separator splits into itself. */
  lemma {:induction false} SplitWithout(s: string, sep: char)
    requires sep !in s
    ensures Split(s, sep) == [s]
    decreases |s|
  {
    if s != [] {
      SplitWithout(s[1..], sep);
      assert [s[0]] + s[1..] == s;
    }
  }

  /** Splitting at a separator that `a` does not contain gives `a`, then the pieces of the rest. */
  lemma {:induction false} SplitAfter(a: string, b: string, sep: char)
    requires sep !in a
    ensures Split(a + [sep] + b, sep) == [a] + Split(b, sep)
    decreases |a|
  {
    var s := a + [sep] + b;
    if a == [] {
      assert s[0] == sep && s[1..] == b;
    } else {
      assert s[0] == a[0];
      assert s[1..] == a[1..] + [sep] + b;
      SplitAfter(a[1..], b, sep);
      assert [a[0]] + a[1..] == a;
    }
  }

  /**
   * The query string splits back into its pairs when no pair holds the
   * separator, as `encodeURIComponent` guarantees for `&`.
   */
  lemma {:induction false} SplitJoin(parts: seq<string>, sep: char)
    requires parts != []
    requires forall k | 0 <= k < |parts| :: sep !in parts[k]
    ensures Split(Join(parts, sep), sep) == parts
    decreases |parts|
  {
    if |parts| == 1 {
      SplitWithout(parts[0], sep);
    } else {
      SplitJoin(parts[1..], sep);
      SplitAfter(parts[0], Join(parts[1..], sep), sep);
      assert [parts[0]] + parts[1..] == parts;
    }
  }

  /** When `enc` never produces the separator, no pair contains it. */
  lemma {:induction false} PairsAvoid(params: seq<Param>, enc: string -> string, sep: char)
    requires sep != '='
    requires forall t :: sep !in enc(t)
    ensures forall k | 0 <= k < |Pairs(params, enc)| :: sep !in Pairs(params, enc)[k]
    decreases |params|
  {
    if params != [] {
      PairsAvoid(params[1..], enc, sep);
      if params[0].value.Given? {
        var pair := enc(params[0].key) + "=" + enc(params[0].value.text);
        assert sep !in enc(params[0].key) && sep !in enc(params[0].value.text);
        assert sep !in pair;
      }
    }
  }

  /** The query string of `get` splits at `&` back into exactly the pairs of the parameters that have a value. */
  lemma QueryStringSplits(params: seq<Param>, enc: string -> string)
    requires HasValue(params)
    requires forall t :: '&' !in enc(t)
    ensures Split(QueryString(params, enc), '&') == Pairs(params, enc)
  {
    QueryPairs(params, enc);
    PairsNonEmpty(params, enc);
    PairsAvoid(params, enc, '&');
    SplitJoin(Pairs(params, enc), '&');
  }
}
