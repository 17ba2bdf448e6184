/**
 * `GET /api/coins` (src/app/api/coins/route.js): asks the CoinGecko markets
 * endpoint for the first page of ten coins by market capitalisation and
 * relays it, or maps what went wrong to an error status. The upstream call
 * is an input: it timed out, failed otherwise, or answered with a status
 * and a body.
 */
module CoinsRoute {
  import opened Base
  import opened JsText

  // ------------------------------------------------------- upstream request

  /** One `key=value` pair of a URL query. */
  datatype Param = Param(key: string, value: string)

  function EncodeParam(p: Param): string {
    p.key + "=" + p.value
  }

  /** The pairs joined by `&`. */
  function EncodeQuery(ps: seq<Param>): string {
    if ps == [] then ""
    else if |ps| == 1 then EncodeParam(ps[0])
    else EncodeParam(ps[0]) + "&" + EncodeQuery(ps[1..])
  }

  /** The first position at or after `from` holding `c`, or the end. */
  function IndexOf(s: string, c: char, from: nat): (i: nat)
    requires from <= |s|
    ensures from <= i <= |s|
    ensures i < |s| ==> s[i] == c
    ensures forall k :: from <= k < i ==> s[k] != c
    decreases |s| - from
  {
    if from == |s| || s[from] == c then from else IndexOf(s, c, from + 1)
  }

  /** A `key=value` segment; a segment without `=` is a key with an empty value. */
  function DecodeParam(s: string): Param {
    var i := IndexOf(s, '=', 0);
    if i == |s| then Param(s, "") else Param(s[..i], s[i + 1..])
  }

  /** A query split at `&` into its pairs. */
  function DecodeQuery(s: string): seq<Param>
    decreases |s|
  {
    if s == "" then []
    else
      var i := IndexOf(s, '&', 0);
      [DecodeParam(s[..i])] + (if i == |s| then [] else DecodeQuery(s[i + 1..]))
  }

  /** Keys without `&` or `=`, values without `&`: what can travel in a query unescaped. */
  predicate Plain(p: Param) {
    '&' !in p.key && '=' !in p.key && '&' !in p.value
  }

  lemma DecodeEncodedParam(p: Param, rest: string)
    requires Plain(p)
    ensures IndexOf(EncodeParam(p) + rest, '=', 0) == |p.key|
    ensures DecodeParam(EncodeParam(p)) == p
  {
    var e := EncodeParam(p) + rest;
    assert e[|p.key|] == '=';
    assert forall k :: 0 <= k < |p.key| ==> e[k] == p.key[k];
    assert forall k :: 0 <= k < |p.key| ==> e[k] != '=';
    var f := EncodeParam(p);
    assert f[|p.key|] == '=';
    assert forall k :: 0 <= k < |p.key| ==> f[k] == p.key[k];
    assert f[..|p.key|] == p.key && f[|p.key| + 1..] == p.value;
  }

  /** Decoding an encoded query gives back its pairs, in order. */
  lemma {:induction false} QueryRoundTrip(ps: seq<Param>)
    requires forall k :: 0 <= k < |ps| ==> Plain(ps[k])
    ensures DecodeQuery(EncodeQuery(ps)) == ps
    decreases |ps|
  {
    if ps != [] {
      var head := EncodeParam(ps[0]);
      DecodeEncodedParam(ps[0], "");
      assert forall k :: 0 <= k < |head| ==> head[k] != '&' by {
        assert forall k :: 0 <= k < |ps[0].key| ==> head[k] == ps[0].key[k];
        assert forall k :: |ps[0].key| < k < |head| ==> head[k] == ps[0].value[k - |ps[0].key| - 1];
      }
      if |ps| == 1 {
        assert IndexOf(head, '&', 0) == |head|;
        assert head[..|head|] == head;
      } else {
        var e := head + "&" + EncodeQuery(ps[1..]);
        assert e[|head|] == '&';
        assert forall k :: 0 <= k < |head| ==> e[k] == head[k];
        assert IndexOf(e, '&', 0) == |head|;
        assert e[..|head|] == head;
        assert e[|head| + 1..] == EncodeQuery(ps[1..]);
        QueryRoundTrip(ps[1..]);
      }
    }
  }

  /** The value of the first pair with the given key. */
  function Lookup(ps: seq<Param>, key: string): (r: Option<string>)
    ensures r.Some? ==> Param(key, r.value) in ps
    ensures r.None? ==> forall k :: 0 <= k < |ps| ==> ps[k].key != key
  {
    if ps == [] then None
    else if ps[0].key == key then Some(ps[0].value)
    else Lookup(ps[1..], key)
  }

  const MarketsEndpoint := "https://api.coingecko.com/api/v3/coins/markets"

  const MarketsQuery: seq<Param> := [
    Param("vs_currency", "usd"),
    Param("order", "market_cap_desc"),
    Param("per_page", "10"),
    Param("page", "1"),
    Param("sparkline", "false")]

  /** The URL the route fetches: the markets endpoint with the query above. */
  function MarketsUrl(): string {
    MarketsEndpoint + "?" + EncodeQuery(MarketsQuery)
  }

  /** Every pair of the markets query travels unescaped. */
  lemma MarketsQueryIsPlain()
    ensures forall k :: 0 <= k < |MarketsQuery| ==> Plain(MarketsQuery[k])
  {
    PlainPair("vs_currency", "usd");
    PlainPair("order", "market_cap_desc");
    PlainPair("per_page", "10");
    PlainPair("page", "1");
    PlainPair("sparkline", "false");
  }

  /** A pair of lower-case words, digits and underscores travels unescaped. */
  lemma PlainPair(key: string, value: string)
    requires forall k :: 0 <= k < |key| ==> 'a' <= key[k] <= 'z' || key[k] == '_'
    requires forall k :: 0 <= k < |value| ==> 'a' <= value[k] <= 'z' || '0' <= value[k] <= '9' || value[k] == '_'
    ensures Plain(Param(key, value))
  {
  }

  /** What each key of the markets query is set to. */
  lemma MarketsQueryValues()
    ensures && Lookup(MarketsQuery, "page") == Some("1")
            && Lookup(MarketsQuery, "per_page") == Some("10")
            && Lookup(MarketsQuery, "order") == Some("market_cap_desc")
            && Lookup(MarketsQuery, "vs_currency") == Some("usd")
            && Lookup(MarketsQuery, "sparkline") == Some("false")
  {
    var q := MarketsQuery;
    assert Lookup(q[1..][1..][1..][1..], "sparkline") == Some("false");
    assert Lookup(q[1..][1..][1..], "page") == Some("1");
    assert Lookup(q[1..][1..], "per_page") == Some("10");
  }

  /**
   * Whatever the upstream does, the URL the route fetches is the markets
   * endpoint with a query asking for US-dollar prices, ordered by market
   * capitalisation, descending, ten per page, the first page, and no
   * sparkline: that is what its query reads back as.
   */
  lemma MarketsRequestAsksForTopTen(up: Upstream)
    ensures var url := Get(up).fetched;
      && |MarketsEndpoint| < |url| && url[..|MarketsEndpoint| + 1] == MarketsEndpoint + "?"
      && var q := DecodeQuery(url[|MarketsEndpoint| + 1..]);
      && Lookup(q, "page") == Some("1")
      && Lookup(q, "per_page") == Some("10")
      && Lookup(q, "order") == Some("market_cap_desc")
      && Lookup(q, "vs_currency") == Some("usd")
      && Lookup(q, "sparkline") == Some("false")
  {
    var url := Get(up).fetched;
    assert url[|MarketsEndpoint| + 1..] == EncodeQuery(MarketsQuery);
    assert url[..|MarketsEndpoint| + 1] == MarketsEndpoint + "?";
    MarketsQueryIsPlain();
    QueryRoundTrip(MarketsQuery);
    MarketsQueryValues();
  }

  // ---------------------------------------------------------- upstream reply

  /** One element of the upstream array, reduced to the fields the route copies as text. */
  datatype UpstreamCoin =
    | NullCoin
    | CoinRecord(name: Option<string>, symbol: Option<string>, image: Option<string>)

  /** The upstream body: not JSON, JSON that is not an array, or an array of coins. */
  datatype Body = Unparseable | NotAnArray | CoinArray(coins: seq<UpstreamCoin>)

  /** What the upstream call did. */
  datatype Upstream =
    | TimedOut                                        // aborted after 5 s: an `AbortError`
    | FetchFailed                                     // any other rejection of `fetch`
    | Answered(ok: bool, statusText: string, body: Body)

  /** One coin as the route returns it (numeric fields are not part of this model). */
  datatype Coin = Coin(name: Option<string>, symbol: string, image: Option<string>)

  datatype Payload = ErrorMessage(error: string) | CoinList(coins: seq<Coin>)

  datatype Response = Response(status: int, payload: Payload)

  /** A coin the mapping can read: not `null`, with a string symbol to upper-case. */
  predicate Readable(c: UpstreamCoin) {
    c.CoinRecord? && c.symbol.Some?
  }

  /** The per-coin mapping: name and image copied, symbol upper-cased; an unreadable coin throws. */
  function Normalise(c: UpstreamCoin): (r: Option<Coin>)
    ensures r.Some? <==> Readable(c)
    ensures r.Some? ==> r.value == Coin(c.name, ToUpper(c.symbol.value), c.image)
  {
    match c
    case NullCoin => None
    case CoinRecord(name, symbol, image) =>
      if symbol.None? then None else Some(Coin(name, ToUpper(symbol.value), image))
  }

  /** `data.map(...)`: the whole array mapped in order, or a throw at the first unreadable coin. */
  function NormaliseAll(cs: seq<UpstreamCoin>): (r: Option<seq<Coin>>)
    ensures r.Some? <==> forall k :: 0 <= k < |cs| ==> Readable(cs[k])
    ensures r.Some? ==> |r.value| == |cs|
    ensures r.Some? ==> forall k :: 0 <= k < |cs| ==>
      r.value[k] == Coin(cs[k].name, ToUpper(cs[k].symbol.value), cs[k].image)
  {
    if cs == [] then Some([])
    else
      match (Normalise(cs[0]), NormaliseAll(cs[1..]))
      case (Some(c), Some(rest)) => Some([c] + rest)
      case _ => None
  }

  const TimeoutError := "API request timed out"
  const InternalError := "Internal Server Error"
  const FormatError := "Unexpected API response format"
  const UpstreamErrorPrefix := "CoinGecko API error: "

  /** The route's answer for a given upstream outcome. */
  function Respond(up: Upstream): (r: Response)
    ensures r.status == 200 || r.status == 500 || r.status == 502 || r.status == 504
    ensures up.TimedOut? ==> r == Response(504, ErrorMessage(TimeoutError))
    ensures up.FetchFailed? ==> r == Response(500, ErrorMessage(InternalError))
    ensures up.Answered? && !up.ok ==> r == Response(502, ErrorMessage(UpstreamErrorPrefix + up.statusText))
    ensures up.Answered? && up.ok && up.body.NotAnArray? ==> r == Response(502, ErrorMessage(FormatError))
    ensures up.Answered? && up.ok && up.body.Unparseable? ==> r == Response(500, ErrorMessage(InternalError))
    ensures r.status == 200 <==>
      up.Answered? && up.ok && up.body.CoinArray? && forall k :: 0 <= k < |up.body.coins| ==> Readable(up.body.coins[k])
    ensures r.status == 500 && up.Answered? ==> r.payload == ErrorMessage(InternalError)
    ensures up.Answered? && up.ok && up.body.CoinArray?
            && (exists k :: 0 <= k < |up.body.coins| && !Readable(up.body.coins[k])) ==>
      r == Response(500, ErrorMessage(InternalError))
    ensures r.status == 200 ==> r.payload.CoinList? && |r.payload.coins| == |up.body.coins|
    ensures r.status == 200 ==> forall k :: 0 <= k < |up.body.coins| ==>
      && r.payload.coins[k].symbol == ToUpper(up.body.coins[k].symbol.value)
      && r.payload.coins[k].name == up.body.coins[k].name
      && r.payload.coins[k].image == up.body.coins[k].image
  {
    match up
    case TimedOut => Response(504, ErrorMessage(TimeoutError))
    case FetchFailed => Response(500, ErrorMessage(InternalError))
    case Answered(ok, statusText, body) =>
      if !ok then Response(502, ErrorMessage(UpstreamErrorPrefix + statusText))
      else
        match body
        case Unparseable => Response(500, ErrorMessage(InternalError))
        case NotAnArray => Response(502, ErrorMessage(FormatError))
        case CoinArray(coins) =>
          match NormaliseAll(coins)
          case Some(list) => Response(200, CoinList(list))
          case None => Response(500, ErrorMessage(InternalError))
  }

  /** The route's result: the URL it fetched and its response. */
  datatype Handled = Handled(fetched: string, response: Response)

  /** `GET`: one fetch of the markets URL, then the answer for what came back. */
  function Get(up: Upstream): (r: Handled)
    ensures r.fetched == MarketsUrl() && r.response == Respond(up)
  {
    Handled(MarketsUrl(), Respond(up))
  }
}
