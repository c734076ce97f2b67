/**
 * The interval table `INTERVALS` (main.py:18-24) and the request URL that
 * `fetch_crypto_data` assembles with an f-string (main.py:29). The string is not
 * URL-encoded: symbol and key are pasted in as they are.
 *
 * To say what the URL carries, the module also has a simplified query reader:
 * the path up to the first '?', then '&'-separated `key=value` pairs. It does not
 * cut a '#' fragment and does not percent-decode.
 */
module CryptoCompare {
  import opened Wrappers

  /** The interval choices and the history endpoint each one is fetched from. */
  const Intervals: map<string, string> := map[
    "1m" := "histominute",
    "5m" := "histominute",
    "15m" := "histominute",
    "1h" := "histohour",
    "1d" := "histoday"
  ]

  const BaseUrl: string := "https://min-api.cryptocompare.com/data/v2/"

  /** `INTERVALS[interval]`; an unknown interval is a lookup failure (a `KeyError`). */
  function Endpoint(interval: string): (r: Option<string>)
    ensures r == Some("histominute") <==> interval == "1m" || interval == "5m" || interval == "15m"
    ensures r == Some("histohour") <==> interval == "1h"
    ensures r == Some("histoday") <==> interval == "1d"
    ensures r.None? <==> interval !in {"1m", "5m", "15m", "1h", "1d"}
  {
    if interval in Intervals then Some(Intervals[interval]) else None
  }

  /** The request URL of main.py:29, or `None` where the interval lookup fails. */
  function RequestUrl(symbol: string, interval: string, apiKey: string): (r: Option<string>)
    ensures r.Some? <==> interval in {"1m", "5m", "15m", "1h", "1d"}
    ensures r.Some? ==> BaseUrl + Endpoint(interval).value <= r.value
  {
    match Endpoint(interval)
    case None => None
    case Some(endpoint) =>
      Some(BaseUrl + endpoint + "?fsym=" + symbol + "&tsym=USDT" + "&limit=60" + "&aggregate=1"
           + "&e=CCCAGG" + "&api_key=" + apiKey)
  }

  /** `1m`, `5m` and `15m` produce one and the same request: minute candles with `aggregate=1`. */
  lemma MinuteIntervalsShareRequest(symbol: string, apiKey: string)
    ensures RequestUrl(symbol, "5m", apiKey) == RequestUrl(symbol, "1m", apiKey)
    ensures RequestUrl(symbol, "15m", apiKey) == RequestUrl(symbol, "1m", apiKey)
    ensures RequestUrl(symbol, "1m", apiKey).Some?
  {
  }

  /** Split at the first occurrence of `c`, if there is one. */
  function SplitFirst(s: string, c: char): (r: Option<(string, string)>)
    ensures r.None? <==> c !in s
    ensures r.Some? ==> s == r.value.0 + [c] + r.value.1 && c !in r.value.0
  {
    if |s| == 0 then None
    else if s[0] == c then Some(([], s[1..]))
    else
      match SplitFirst(s[1..], c)
      case None => None
      case Some((before, after)) =>
        assert s == [s[0]] + s[1..];
        Some(([s[0]] + before, after))
  }

  /** Split at every occurrence of `c`. */
  function Split(s: string, c: char): (parts: seq<string>)
    ensures |parts| > 0
    decreases |s|
  {
    match SplitFirst(s, c)
    case None => [s]
    case Some((before, after)) => [before] + Split(after, c)
  }

  /** Join non-empty `parts` with the separator `c`. */
  function Join(parts: seq<string>, c: char): string
    requires |parts| > 0
  {
    if |parts| == 1 then parts[0] else parts[0] + [c] + Join(parts[1..], c)
  }

  /** `key=value` read at the first '='; a part without '=' is a key with an empty value. */
  function KeyValue(part: string): (string, string)
  {
    match SplitFirst(part, '=')
    case None => (part, "")
    case Some((key, value)) => (key, value)
  }

  /** A URL as the simplified reader splits it: the path, and the query parameters in order. */
  datatype ParsedUrl = ParsedUrl(path: string, query: seq<(string, string)>)

  function ParseUrl(url: string): Option<ParsedUrl>
  {
    match SplitFirst(url, '?')
    case None => None
    case Some((path, query)) =>
      Some(ParsedUrl(path, Pairs(Split(query, '&'))))
  }

  /** Read every part of a query as a `key=value` pair. */
  function Pairs(parts: seq<string>): (r: seq<(string, string)>)
    ensures |r| == |parts|
  {
    if |parts| == 0 then [] else [KeyValue(parts[0])] + Pairs(parts[1..])
  }

  lemma {:induction false} SplitFirstAt(a: string, c: char, b: string)
    requires c !in a
    ensures SplitFirst(a + [c] + b, c) == Some((a, b))
  {
    if |a| > 0 {
      assert (a + [c] + b)[1..] == a[1..] + [c] + b;
      SplitFirstAt(a[1..], c, b);
      assert [a[0]] + a[1..] == a;
    }
  }

  /** Splitting undoes joining when no part contains the separator. */
  lemma {:induction false} SplitJoin(parts: seq<string>, c: char)
    requires |parts| > 0
    requires forall i :: 0 <= i < |parts| ==> c !in parts[i]
    ensures Split(Join(parts, c), c) == parts
  {
    if |parts| == 1 {
      assert c !in parts[0];
    } else {
      var rest := parts[1..];
      SplitFirstAt(parts[0], c, Join(rest, c));
      SplitJoin(rest, c);
      assert parts == [parts[0]] + rest;
    }
  }

  lemma JoinSix(p0: string, p1: string, p2: string, p3: string, p4: string, p5: string, c: char)
    ensures Join([p0, p1, p2, p3, p4, p5], c)
         == p0 + [c] + p1 + [c] + p2 + [c] + p3 + [c] + p4 + [c] + p5
  {
    var ps := [p0, p1, p2, p3, p4, p5];
    assert ps[1..][1..] == ps[2..];
    assert ps[2..][1..] == ps[3..];
    assert ps[3..][1..] == ps[4..];
    assert ps[4..][1..] == ps[5..];
    assert Join(ps[4..], c) == p4 + [c] + p5;
    assert Join(ps[3..], c) == p3 + [c] + (p4 + [c] + p5);
    assert Join(ps[2..], c) == p2 + [c] + (p3 + [c] + (p4 + [c] + p5));
    assert Join(ps[1..], c) == p1 + [c] + (p2 + [c] + (p3 + [c] + (p4 + [c] + p5)));
  }

  /** Each fixed `&key=value` piece of the f-string is a separator followed by its parameter. */
  lemma FixedPiecesSeparated()
    ensures "&tsym=USDT" == ['&'] + "tsym=USDT"
    ensures "&limit=60" == ['&'] + "limit=60"
    ensures "&aggregate=1" == ['&'] + "aggregate=1"
    ensures "&e=CCCAGG" == ['&'] + "e=CCCAGG"
    ensures "&api_key=" == ['&'] + "api_key="
  {
  }

  /** Regrouping a concatenation after each piece is split into its separator and its text. */
  lemma Regroup(x: string, a1: string, a2: string, a3: string, a4: string, a5: string,
                b1: string, b2: string, b3: string, b4: string, b5: string, k: string, c: char)
    requires a1 == [c] + b1 && a2 == [c] + b2 && a3 == [c] + b3 && a4 == [c] + b4 && a5 == [c] + b5
    ensures x + a1 + a2 + a3 + a4 + a5 + k
         == x + [c] + b1 + [c] + b2 + [c] + b3 + [c] + b4 + [c] + (b5 + k)
  {
    calc {
      x + a1 + a2 + a3 + a4 + a5 + k;
      x + [c] + b1 + a2 + a3 + a4 + a5 + k;
      x + [c] + b1 + [c] + b2 + a3 + a4 + a5 + k;
      x + [c] + b1 + [c] + b2 + [c] + b3 + a4 + a5 + k;
      x + [c] + b1 + [c] + b2 + [c] + b3 + [c] + b4 + a5 + k;
      x + [c] + b1 + [c] + b2 + [c] + b3 + [c] + b4 + [c] + b5 + k;
    }
  }

  /** The query string of the request is the `&`-join of its six parameters. */
  lemma RequestQuery(symbol: string, apiKey: string)
    ensures "fsym=" + symbol + "&tsym=USDT" + "&limit=60" + "&aggregate=1" + "&e=CCCAGG" + "&api_key=" + apiKey
         == Join(RequestParts(symbol, apiKey), '&')
  {
    JoinSix("fsym=" + symbol, "tsym=USDT", "limit=60", "aggregate=1", "e=CCCAGG", "api_key=" + apiKey, '&');
    FixedPiecesSeparated();
    Regroup("fsym=" + symbol, "&tsym=USDT", "&limit=60", "&aggregate=1", "&e=CCCAGG", "&api_key=",
            "tsym=USDT", "limit=60", "aggregate=1", "e=CCCAGG", "api_key=", apiKey, '&');
  }

  /** No endpoint path contains a '?', so the query begins right after the path. */
  lemma PathHasNoQueryMark(interval: string)
    requires Endpoint(interval).Some?
    ensures '?' !in BaseUrl + Endpoint(interval).value
  {
    assert '?' !in BaseUrl;
  }

  /** The six `key=value` parts of the request's query string. */
  function RequestParts(symbol: string, apiKey: string): seq<string>
  {
    ["fsym=" + symbol, "tsym=USDT", "limit=60", "aggregate=1", "e=CCCAGG", "api_key=" + apiKey]
  }

  lemma PairsSix(p0: string, p1: string, p2: string, p3: string, p4: string, p5: string)
    ensures Pairs([p0, p1, p2, p3, p4, p5])
         == [KeyValue(p0), KeyValue(p1), KeyValue(p2), KeyValue(p3), KeyValue(p4), KeyValue(p5)]
  {
    var ps := [p0, p1, p2, p3, p4, p5];
    assert ps[1..][1..] == ps[2..];
    assert ps[2..][1..] == ps[3..];
    assert ps[3..][1..] == ps[4..];
    assert ps[4..][1..] == ps[5..];
    assert ps[5..][1..] == [];
    assert Pairs(ps[5..]) == [KeyValue(p5)];
    assert Pairs(ps[4..]) == [KeyValue(p4), KeyValue(p5)];
    assert Pairs(ps[3..]) == [KeyValue(p3), KeyValue(p4), KeyValue(p5)];
    assert Pairs(ps[2..]) == [KeyValue(p2), KeyValue(p3), KeyValue(p4), KeyValue(p5)];
    assert Pairs(ps[1..]) == [KeyValue(p1), KeyValue(p2), KeyValue(p3), KeyValue(p4), KeyValue(p5)];
  }

  /** A part written as `key=value`, with no '=' in the key, is read back as that pair. */
  lemma KeyValueOf(key: string, value: string)
    requires '=' !in key
    ensures KeyValue(key + ['='] + value) == (key, value)
  {
    SplitFirstAt(key, '=', value);
  }

  /** The four fixed parameters are read back as written. */
  lemma FixedPartsRead()
    ensures KeyValue("tsym=USDT") == ("tsym", "USDT")
    ensures KeyValue("limit=60") == ("limit", "60")
    ensures KeyValue("aggregate=1") == ("aggregate", "1")
    ensures KeyValue("e=CCCAGG") == ("e", "CCCAGG")
  {
    assert "tsym=USDT" == "tsym" + ['='] + "USDT";
    KeyValueOf("tsym", "USDT");
    assert "limit=60" == "limit" + ['='] + "60";
    KeyValueOf("limit", "60");
    assert "aggregate=1" == "aggregate" + ['='] + "1";
    KeyValueOf("aggregate", "1");
    assert "e=CCCAGG" == "e" + ['='] + "CCCAGG";
    KeyValueOf("e", "CCCAGG");
  }

  /** The symbol and the key are read back whatever they contain. */
  lemma VariablePartsRead(symbol: string, apiKey: string)
    ensures KeyValue("fsym=" + symbol) == ("fsym", symbol)
    ensures KeyValue("api_key=" + apiKey) == ("api_key", apiKey)
  {
    assert "fsym=" + symbol == "fsym" + ['='] + symbol;
    KeyValueOf("fsym", symbol);
    assert "api_key=" + apiKey == "api_key" + ['='] + apiKey;
    KeyValueOf("api_key", apiKey);
  }

  /** Each part is read back as the pair it was written from. */
  lemma RequestPartsRead(symbol: string, apiKey: string)
    ensures Pairs(RequestParts(symbol, apiKey))
         == [("fsym", symbol), ("tsym", "USDT"), ("limit", "60"),
             ("aggregate", "1"), ("e", "CCCAGG"), ("api_key", apiKey)]
  {
    PairsSix("fsym=" + symbol, "tsym=USDT", "limit=60", "aggregate=1", "e=CCCAGG", "api_key=" + apiKey);
    FixedPartsRead();
    VariablePartsRead(symbol, apiKey);
  }

  /** The request URL is the endpoint path, a '?', and the `&`-join of the six parameters. */
  lemma RequestUrlShape(symbol: string, interval: string, apiKey: string)
    requires Endpoint(interval).Some?
    ensures RequestUrl(symbol, interval, apiKey).value
         == (BaseUrl + Endpoint(interval).value) + ['?'] + Join(RequestParts(symbol, apiKey), '&')
  {
    RequestQuery(symbol, apiKey);
    assert "?fsym=" == ['?'] + "fsym=";
  }

  /** No parameter contains '&' when neither the symbol nor the key does. */
  lemma PartsHaveNoAmpersand(symbol: string, apiKey: string)
    requires '&' !in symbol && '&' !in apiKey
    ensures forall i :: 0 <= i < 6 ==> '&' !in RequestParts(symbol, apiKey)[i]
  {
    var ps := RequestParts(symbol, apiKey);
    forall i | 0 <= i < 6 ensures '&' !in ps[i] {
      if i == 0 { assert ps[i] == "fsym=" + symbol; }
      if i == 5 { assert ps[i] == "api_key=" + apiKey; }
    }
  }

  /**
   * What every request carries: the endpoint path of its interval and, in order,
   * `fsym` = the symbol, `tsym=USDT`, `limit=60`, `aggregate=1`, `e=CCCAGG` and
   * `api_key` = the key, provided symbol and key contain no '&' and no '#' (nothing is
   * escaped; a client would drop everything from a '#' on).
   */
  lemma RequestUrlParameters(symbol: string, interval: string, apiKey: string)
    requires Endpoint(interval).Some?
    requires '&' !in symbol && '&' !in apiKey
    requires '#' !in symbol && '#' !in apiKey
    ensures ParseUrl(RequestUrl(symbol, interval, apiKey).value)
         == Some(ParsedUrl(BaseUrl + Endpoint(interval).value,
                           [("fsym", symbol), ("tsym", "USDT"), ("limit", "60"),
                            ("aggregate", "1"), ("e", "CCCAGG"), ("api_key", apiKey)]))
  {
    var path := BaseUrl + Endpoint(interval).value;
    var ps := RequestParts(symbol, apiKey);
    var query := Join(ps, '&');
    RequestUrlShape(symbol, interval, apiKey);
    PathHasNoQueryMark(interval);
    SplitFirstAt(path, '?', query);
    PartsHaveNoAmpersand(symbol, apiKey);
    SplitJoin(ps, '&');
    RequestPartsRead(symbol, apiKey);
  }
}
