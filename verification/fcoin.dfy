/** The FCoin client: requests are canonicalised and, for private endpoints,
    signed with HMAC-SHA1 over the base64 of "METHOD" ++ URI ++ timestamp ++
    body; every answer goes through one status mapping.

    UTF-8 encoding, base64 (section 4 of RFC 4648), HMAC-SHA1 (RFC 2104), the
    clock and the HTTP round trip are collaborators passed in as parameters. */
module Fcoin {
  import opened Wrappers
  import opened GoInt
  import opened Text
  import opened FcoinUtil

  type Bytes = seq<byte>

  datatype Service = Service(url: string, apiKey: string, secretKey: string)

  /** The response envelope `{status, msg, data}`, `data` left undecoded. */
  datatype Response = Response(status: int64, msg: string, data: Bytes)

  datatype Error =
    | TransportError(reason: string)        // request, round trip or envelope decoding failed
    | AccountError                          // status 2000
    | StatusError(status: int64, msg: string) // any other non-zero status
    | DecodeError(reason: string)           // `data` did not decode

  datatype Crypto = Crypto(
    utf8: string -> Bytes,
    base64: Bytes -> string,
    hmacSha1: (Bytes, Bytes) -> Bytes)

  /** An HTTP request as it leaves the client. `body` is the JSON object sent,
      `None` when no body is sent at all. */
  datatype Request = Request(
    verb: string, uri: string, headers: seq<(string, string)>, body: Option<map<string, string>>)

  const AccountErrorText: string := "account error"
  const StatusPrefix: string := "response status is "
  const MsgInfix: string := " msg "

  // ---------------------------------------------------------------------------
  // Status mapping
  // ---------------------------------------------------------------------------

  /** Status 0 hands back the data, 2000 is the account error, and every other
      status is an error carrying status and message. */
  function CheckStatus(res: Response): (r: Result<Bytes, Error>)
    ensures r.Success? <==> res.status == 0
    ensures r.Success? ==> r.value == res.data
    ensures res.status == 2000 ==> r == Failure(AccountError)
    ensures res.status != 0 && res.status != 2000 ==> r == Failure(StatusError(res.status, res.msg))
  {
    if res.status != 0 then
      if res.status == 2000 then Failure(AccountError)
      else Failure(StatusError(res.status, res.msg))
    else Success(res.data)
  }

  /** The text of an error as Go formats it. */
  function ErrorText(e: Error): string {
    match e
    case TransportError(reason) => reason
    case AccountError => AccountErrorText
    case StatusError(status, msg) => StatusPrefix + Itoa(status) + MsgInfix + msg
    case DecodeError(reason) => reason
  }

  /** The status written into a status error's text can be read back out of it. */
  lemma StatusErrorTextCarriesStatus(status: int64, msg: string)
    ensures var text := ErrorText(StatusError(status, msg));
      var digits := Itoa(status);
      && text[..|StatusPrefix|] == StatusPrefix
      && ParseInt(text[|StatusPrefix|..|StatusPrefix| + |digits|]) == Some(status as int)
      && text[|StatusPrefix| + |digits|..] == MsgInfix + msg
  {
    var text := ErrorText(StatusError(status, msg));
    var digits := Itoa(status);
    assert text[|StatusPrefix|..|StatusPrefix| + |digits|] == digits;
    ItoaRoundTrip(status);
  }

  // ---------------------------------------------------------------------------
  // Signing
  // ---------------------------------------------------------------------------

  /** `strconv.Itoa(int(unix) * 1e3)`: whole seconds times 1000, in decimal,
      with Go's 64-bit wrap-around of the product. */
  function Timestamp(unixSeconds: int64): (ts: string)
    ensures ParseInt(ts) == Some(Wrap64(unixSeconds * 1000) as int)
    ensures -0x8000_0000_0000_0000 <= unixSeconds * 1000 < 0x8000_0000_0000_0000 ==>
      ParseInt(ts) == Some(unixSeconds * 1000)
  {
    ItoaRoundTrip(Wrap64(unixSeconds * 1000));
    Itoa(Wrap64(unixSeconds * 1000))
  }

  /** The string that is signed: the upper-cased verb, the sorted URI, the
      timestamp and the sorted body, concatenated. */
  function Preimage(upperVerb: string, sortedUri: string, ts: string, sortedBody: string): string {
    upperVerb + sortedUri + ts + sortedBody
  }

  /** base64(HMAC-SHA1(secret, base64(preimage))). */
  function Signature(secret: string, preimage: string, crypto: Crypto): string {
    crypto.base64(crypto.hmacSha1(crypto.utf8(secret), crypto.utf8(crypto.base64(crypto.utf8(preimage)))))
  }

  /** The value of the first header called `name`. */
  function Header(headers: seq<(string, string)>, name: string): Option<string>
    decreases |headers|
  {
    if |headers| == 0 then None
    else if headers[0].0 == name then Some(headers[0].1)
    else Header(headers[1..], name)
  }

  lemma {:induction false} HeaderAfter(pre: seq<(string, string)>, rest: seq<(string, string)>, name: string)
    requires forall i :: 0 <= i < |pre| ==> pre[i].0 != name
    ensures Header(pre + rest, name) == Header(rest, name)
    decreases |pre|
  {
    if |pre| == 0 {
      assert pre + rest == rest;
    } else {
      assert (pre + rest)[0] == pre[0];
      assert (pre + rest)[1..] == pre[1..] + rest;
      HeaderAfter(pre[1..], rest, name);
    }
  }

  lemma {:induction false} HeaderBefore(pre: seq<(string, string)>, rest: seq<(string, string)>, name: string)
    requires forall i :: 0 <= i < |rest| ==> rest[i].0 != name
    ensures Header(pre + rest, name) == Header(pre, name)
    decreases |pre|
  {
    if |pre| == 0 {
      assert pre + rest == rest;
      HeaderAfter(rest, [], name);
      assert rest + [] == rest;
    } else {
      assert (pre + rest)[0] == pre[0];
      assert (pre + rest)[1..] == pre[1..] + rest;
      HeaderBefore(pre[1..], rest, name);
    }
  }

  /** `urlValuesToJSON`: one entry per key, holding that key's first value. */
  function FirstValues(v: Values): (m: map<string, string>)
    ensures m.Keys == v.Keys
    ensures forall k :: k in m ==> m[k] == Get(v, k)
  {
    map k | k in v :: Get(v, k)
  }

  /** The JSON body read back as values, each key with its one value. */
  function AsValues(body: Option<map<string, string>>): (v: Values)
    ensures body.None? ==> v == map[]
    ensures body.Some? ==> v.Keys == body.value.Keys && forall k :: k in v ==> Get(v, k) == body.value[k]
  {
    if body.None? then map[] else map k | k in body.value :: [body.value[k]]
  }

  /** The JSON body lists exactly the pairs the signed body lists. */
  lemma FirstValuesMatchPairs(v: Values)
    ensures forall i :: 0 <= i < |Pairs(v)| ==> Pairs(v)[i].0 in FirstValues(v) && FirstValues(v)[Pairs(v)[i].0] == Pairs(v)[i].1
    ensures forall k :: k in FirstValues(v) ==> exists i :: 0 <= i < |Pairs(v)| && Pairs(v)[i] == (k, FirstValues(v)[k])
  {
    var ps := Pairs(v);
    var m := FirstValues(v);
    forall i | 0 <= i < |ps| ensures ps[i].0 in m && m[ps[i].0] == ps[i].1 {
      assert ps[i].0 in v;
    }
    forall k | k in m ensures exists i :: 0 <= i < |ps| && ps[i] == (k, m[k]) {
      assert k in v;
      var i :| 0 <= i < |ps| && ps[i].0 == k;
      assert ps[i] == (k, m[k]);
    }
  }

  /** The canonical string only looks at the keys and their first values. */
  lemma SortedBodyOfFirstValues(v: Values, w: Values)
    requires v.Keys == w.Keys
    requires forall k :: k in v ==> Get(v, k) == Get(w, k)
    ensures SortedBody(v) == SortedBody(w)
  {
    var keys := SortedKeys(v.Keys);
    assert KeyValueParts(keys, v) == KeyValueParts(keys, w);
  }

  function BodyValues(body: Option<Values>): Values {
    if body.Some? then body.value else map[]
  }

  function JsonBody(body: Option<Values>): Option<map<string, string>> {
    if body.Some? then Some(FirstValues(body.value)) else None
  }

  /** Content-Type is set for POST and PUT only. */
  function ContentHeaders(upperVerb: string): (hs: seq<(string, string)>)
    ensures forall i :: 0 <= i < |hs| ==> hs[i].0 == "Content-Type"
    ensures Header(hs, "Content-Type") == (if upperVerb == "POST" || upperVerb == "PUT" then Some("application/json") else None)
  {
    if upperVerb == "POST" || upperVerb == "PUT" then [("Content-Type", "application/json")] else []
  }

  /** The request `authorization` sends. The signature covers the very verb,
      URI and timestamp that are sent, and the body it covers lists the pairs of
      the JSON body that is sent. */
  function AuthorizedRequest(svc: Service, verb: string, path: string, params: Values, body: Option<Values>,
                             unixSeconds: int64, crypto: Crypto): (req: Request)
    ensures req.verb == ToUpper(verb)
    ensures req.uri == SortedUri(ParseUri(svc.url + path), params)
    ensures req.body == JsonBody(body)
    ensures Header(req.headers, "Content-Type") == (if req.verb == "POST" || req.verb == "PUT" then Some("application/json") else None)
    ensures Header(req.headers, "FC-ACCESS-KEY") == Some(svc.apiKey)
    ensures Header(req.headers, "FC-ACCESS-TIMESTAMP") == Some(Timestamp(unixSeconds))
    ensures Header(req.headers, "FC-ACCESS-SIGNATURE") ==
      Some(Signature(svc.secretKey, Preimage(req.verb, req.uri, Timestamp(unixSeconds), SortedBody(BodyValues(body))), crypto))
  {
    var upper := ToUpper(verb);
    var uri := SortedUri(ParseUri(svc.url + path), params);
    var ts := Timestamp(unixSeconds);
    var signature := Signature(svc.secretKey, Preimage(upper, uri, ts, SortedBody(BodyValues(body))), crypto);
    var headers := SignedHeaders(upper, svc.apiKey, signature, ts);
    Request(upper, uri, headers, JsonBody(body))
  }

  /** The content header, then the key, signature and timestamp headers. */
  function SignedHeaders(upperVerb: string, key: string, signature: string, ts: string): (hs: seq<(string, string)>)
    ensures Header(hs, "Content-Type") == (if upperVerb == "POST" || upperVerb == "PUT" then Some("application/json") else None)
    ensures Header(hs, "FC-ACCESS-KEY") == Some(key)
    ensures Header(hs, "FC-ACCESS-SIGNATURE") == Some(signature)
    ensures Header(hs, "FC-ACCESS-TIMESTAMP") == Some(ts)
  {
    var auth := [("FC-ACCESS-KEY", key), ("FC-ACCESS-SIGNATURE", signature), ("FC-ACCESS-TIMESTAMP", ts)];
    var content := ContentHeaders(upperVerb);
    assert Header(auth, "FC-ACCESS-SIGNATURE") == Some(signature) by {
      assert auth[1..][0].0 == "FC-ACCESS-SIGNATURE";
    }
    assert Header(auth, "FC-ACCESS-TIMESTAMP") == Some(ts) by {
      assert auth[1..][1..] == [("FC-ACCESS-TIMESTAMP", ts)];
      assert Header(auth[1..][1..], "FC-ACCESS-TIMESTAMP") == Some(ts);
      assert Header(auth[1..], "FC-ACCESS-TIMESTAMP") == Some(ts);
    }
    HeaderAfter(content, auth, "FC-ACCESS-KEY");
    HeaderAfter(content, auth, "FC-ACCESS-SIGNATURE");
    HeaderAfter(content, auth, "FC-ACCESS-TIMESTAMP");
    HeaderBefore(content, auth, "Content-Type");
    content + auth
  }

  /** What the server checks: recomputing the signature from the request as
      received, with the JSON body read back as values. */
  predicate ServerAccepts(req: Request, secret: string, crypto: Crypto) {
    var ts := Header(req.headers, "FC-ACCESS-TIMESTAMP");
    var sig := Header(req.headers, "FC-ACCESS-SIGNATURE");
    && ts.Some? && sig.Some?
    && sig.value == Signature(secret, Preimage(req.verb, req.uri, ts.value, SortedBody(AsValues(req.body))), crypto)
  }

  /** A signed request checks out on the receiving side: nothing is
      re-serialised differently between signing and sending. */
  lemma AuthorizedRequestVerifies(svc: Service, verb: string, path: string, params: Values, body: Option<Values>,
                                  unixSeconds: int64, crypto: Crypto)
    ensures ServerAccepts(AuthorizedRequest(svc, verb, path, params, body, unixSeconds, crypto), svc.secretKey, crypto)
  {
    var req := AuthorizedRequest(svc, verb, path, params, body, unixSeconds, crypto);
    if body.Some? {
      SortedBodyOfFirstValues(AsValues(req.body), body.value);
    }
  }

  /** The request `public` sends: no signature headers. */
  function PublicRequest(svc: Service, verb: string, path: string, params: Values, body: Option<Values>): (req: Request)
    ensures req.verb == ToUpper(verb)
    ensures req.uri == SortedUri(ParseUri(svc.url + path), params)
    ensures req.body == JsonBody(body)
    ensures Header(req.headers, "FC-ACCESS-SIGNATURE") == None
    ensures forall i :: 0 <= i < |req.headers| ==> req.headers[i].0 == "Content-Type"
    ensures Header(req.headers, "Content-Type") == (if req.verb == "POST" || req.verb == "PUT" then Some("application/json") else None)
  {
    var upper := ToUpper(verb);
    Request(upper, SortedUri(ParseUri(svc.url + path), params), ContentHeaders(upper), JsonBody(body))
  }

  // ---------------------------------------------------------------------------
  // authorization and public
  // ---------------------------------------------------------------------------

  function Answer(x: Result<Response, string>): (r: Result<Bytes, Error>)
    ensures x.Failure? ==> r == Failure(TransportError(x.error))
    ensures x.Success? ==> r == CheckStatus(x.value)
  {
    match x
    case Failure(e) => Failure(TransportError(e))
    case Success(res) => CheckStatus(res)
  }

  /** A signed call: the data comes back exactly when the round trip succeeds with status 0. */
  function Authorization(svc: Service, verb: string, path: string, params: Values, body: Option<Values>,
                         unixSeconds: int64, crypto: Crypto, send: Request -> Result<Response, string>): (r: Result<Bytes, Error>)
    ensures var x := send(AuthorizedRequest(svc, verb, path, params, body, unixSeconds, crypto));
      r.Success? <==> x.Success? && x.value.status == 0
    ensures var x := send(AuthorizedRequest(svc, verb, path, params, body, unixSeconds, crypto));
      x.Failure? ==> r == Failure(TransportError(x.error))
    ensures var x := send(AuthorizedRequest(svc, verb, path, params, body, unixSeconds, crypto));
      r.Success? ==> r.value == x.value.data
    ensures var x := send(AuthorizedRequest(svc, verb, path, params, body, unixSeconds, crypto));
      x.Success? && x.value.status == 2000 ==> r == Failure(AccountError)
    ensures var x := send(AuthorizedRequest(svc, verb, path, params, body, unixSeconds, crypto));
      x.Success? && x.value.status != 0 && x.value.status != 2000 ==> r == Failure(StatusError(x.value.status, x.value.msg))
  {
    Answer(send(AuthorizedRequest(svc, verb, path, params, body, unixSeconds, crypto)))
  }

  /** An unsigned call, with the same status mapping. */
  function Public(svc: Service, verb: string, path: string, params: Values, body: Option<Values>,
                  send: Request -> Result<Response, string>): (r: Result<Bytes, Error>)
    ensures var x := send(PublicRequest(svc, verb, path, params, body));
      r.Success? <==> x.Success? && x.value.status == 0
    ensures var x := send(PublicRequest(svc, verb, path, params, body));
      x.Failure? ==> r == Failure(TransportError(x.error))
    ensures var x := send(PublicRequest(svc, verb, path, params, body));
      r.Success? ==> r.value == x.value.data
    ensures var x := send(PublicRequest(svc, verb, path, params, body));
      x.Success? && x.value.status == 2000 ==> r == Failure(AccountError)
    ensures var x := send(PublicRequest(svc, verb, path, params, body));
      x.Success? && x.value.status != 0 && x.value.status != 2000 ==> r == Failure(StatusError(x.value.status, x.value.msg))
  {
    Answer(send(PublicRequest(svc, verb, path, params, body)))
  }

  /** Given the same answer, a signed and an unsigned call end the same way. */
  lemma SameStatusMapping(svc: Service, verb: string, path: string, params: Values, body: Option<Values>,
                          unixSeconds: int64, crypto: Crypto, send: Request -> Result<Response, string>)
    requires send(AuthorizedRequest(svc, verb, path, params, body, unixSeconds, crypto)) == send(PublicRequest(svc, verb, path, params, body))
    ensures Authorization(svc, verb, path, params, body, unixSeconds, crypto, send) == Public(svc, verb, path, params, body, send)
  {
  }

  // ---------------------------------------------------------------------------
  // Endpoints with logic of their own
  // ---------------------------------------------------------------------------

  /** A `limit` of 0 means the default of 20 entries; any other value is kept. */
  function DefaultLimit(limit: int): (r: int)
    ensures limit == 0 ==> r == 20
    ensures limit != 0 ==> r == limit
  {
    if limit == 0 then 20 else limit
  }

  /** The query of `GetMarketTrades` and `GetMarketCandle`. */
  function PagingQuery(before: string, limit: int): Values {
    map["before" := [before], "limit" := [Itoa(DefaultLimit(limit))]]
  }

  /** The paging query's canonical string lists `before` and then `limit`,
      each with its one value, the limit defaulted. */
  lemma PagingQueryCanonical(before: string, limit: int)
    ensures Pairs(PagingQuery(before, limit)) == [("before", before), ("limit", Itoa(DefaultLimit(limit)))]
  {
    var v := PagingQuery(before, limit);
    PagingKeys(before, limit);
    var ps := Pairs(v);
    assert ps[0] == ("before", Get(v, "before"));
    assert ps[1] == ("limit", Get(v, "limit"));
  }

  /** The paging query's keys in their one sorted order. */
  lemma PagingKeys(before: string, limit: int)
    ensures SortedKeys(PagingQuery(before, limit).Keys) == ["before", "limit"]
  {
    var keys: seq<string> := ["before", "limit"];
    assert Before("before", "limit");
    assert StrictlySorted(keys);
    assert PagingQuery(before, limit).Keys == {"before", "limit"};
    SortedUnique(keys, SortedKeys(PagingQuery(before, limit).Keys));
  }

  function MarketTradesRequest(svc: Service, symbol: string, before: string, limit: int): Request {
    PublicRequest(svc, "GET", "/v2/market/trades/" + symbol, PagingQuery(before, limit), None)
  }

  function MarketCandleRequest(svc: Service, resolution: string, symbol: string, before: string, limit: int): Request {
    PublicRequest(svc, "GET", "/v2/market/candles/" + resolution + "/" + symbol, PagingQuery(before, limit), None)
  }

  /** The defaulted limit goes on the wire as the text "20". */
  lemma DefaultLimitRendered()
    ensures Itoa(DefaultLimit(0)) == "20"
  {
    assert NatToDecimal(2) == "2";
    assert NatToDecimal(20) == NatToDecimal(2) + [DigitChar(0)];
  }

  /** A point in time as `time.Unix` keeps it: seconds and nanoseconds in [0, 1e9). */
  datatype Time = Time(sec: int, nsec: int)

  /** `time.Unix(sec, nsec)`, which carries a nanosecond count outside [0, 1e9) into the seconds. */
  function UnixTime(sec: int, nsec: int): (t: Time)
    ensures 0 <= t.nsec < 1_000_000_000
    ensures t.sec * 1_000_000_000 + t.nsec == sec * 1_000_000_000 + nsec
  {
    if 0 <= nsec < 1_000_000_000 then Time(sec, nsec)
    else
      var n := Quot(nsec, 1_000_000_000);
      var s1 := sec + n;
      var ns1 := nsec - n * 1_000_000_000;
      QuotRem(nsec, 1_000_000_000);
      if ns1 < 0 then Time(s1 - 1, ns1 + 1_000_000_000) else Time(s1, ns1)
  }

  /** The split of a millisecond server time: `ts/1e3` seconds and `ts%1e3*1e6`
      nanoseconds, with Go's truncating division. */
  function SplitMillis(ts: int64): (r: (int, int))
    ensures r.0 * 1000 + Quot(r.1, 1_000_000) == ts
    ensures ts >= 0 ==> 0 <= r.1 <= 999_000_000 && r.0 * 1000 + r.1 / 1_000_000 == ts
    ensures ts < 0 ==> -999_000_000 <= r.1 <= 0
  {
    QuotRem(ts, 1000);
    var sec := Quot(ts, 1000);
    var ms := Rem(ts, 1000);
    assert Quot(ms * 1_000_000, 1_000_000) == ms;
    (sec, ms * 1_000_000)
  }

  /** The server time denotes exactly `ts` milliseconds after the epoch, for
      every `ts`, negative ones included. */
  function ServerTime(ts: int64): (t: Time)
    ensures 0 <= t.nsec < 1_000_000_000
    ensures t.sec * 1_000_000_000 + t.nsec == ts * 1_000_000
    ensures ts >= 0 ==> t.sec == ts / 1000 && t.nsec == (ts % 1000) * 1_000_000
  {
    var split := SplitMillis(ts);
    QuotRem(ts, 1000);
    assert split.1 == Rem(ts, 1000) * 1_000_000;
    UnixTime(split.0, split.1)
  }

  function GetServerTime(svc: Service, send: Request -> Result<Response, string>,
                         decode: Bytes -> Result<int64, string>): (r: Result<Time, Error>)
    ensures var data := Public(svc, "GET", "/v2/public/server-time", map[], None, send);
      r.Success? <==> data.Success? && decode(data.value).Success?
    ensures var data := Public(svc, "GET", "/v2/public/server-time", map[], None, send);
      r.Success? ==> r.value.sec * 1_000_000_000 + r.value.nsec == decode(data.value).value * 1_000_000
    ensures var data := Public(svc, "GET", "/v2/public/server-time", map[], None, send);
      data.Failure? ==> r == Failure(data.error)
    ensures var data := Public(svc, "GET", "/v2/public/server-time", map[], None, send);
      data.Success? && decode(data.value).Failure? ==> r == Failure(DecodeError(decode(data.value).error))
    ensures r.Success? ==> 0 <= r.value.nsec < 1_000_000_000
  {
    var data :- Public(svc, "GET", "/v2/public/server-time", map[], None, send);
    match decode(data)
    case Failure(e) => Failure(DecodeError(e))
    case Success(ts) => Success(ServerTime(ts))
  }

  datatype OrderInformation = OrderInformation(
    id: string, symbol: string, orderType: string, side: string, price: string, amount: string,
    state: string, executedValue: string, fillFees: string, filledAmount: string,
    createdAt: int64, source: string)

  /** The order states the API documents. */
  const OrderStates: seq<string> := ["submitted", "partial_filled", "partial_canceled", "filled", "canceled", "pending_cancel"]

  predicate Finished(state: string) {
    state == "filled" || state == "canceled" || state == "partial_canceled"
  }

  /** `IsOrderFinished` on the outcome of fetching the order: a fetch error is
      passed on, otherwise the order is finished exactly in the three end states. */
  function IsOrderFinished(order: Result<OrderInformation, Error>): (r: Result<bool, Error>)
    ensures order.Failure? ==> r == Failure(order.error)
    ensures order.Success? ==> r.Success? && (r.value <==> order.value.state in {"filled", "canceled", "partial_canceled"})
  {
    match order
    case Failure(e) => Failure(e)
    case Success(o) => Success(Finished(o.state))
  }

  /** Of the documented states, exactly the three end states count as finished. */
  lemma FinishedStates()
    ensures forall i :: 0 <= i < |OrderStates| ==> (Finished(OrderStates[i]) <==> 2 <= i <= 4)
  {
  }

  const KnownSymbols: set<string> := {"ethusdt", "fteth", "zipeth", "zileth"}

  /** `GetCurrentCoinType`: the (base, quote) pair of one of four symbols, and
      ("", "") for every other symbol. */
  function CoinType(symbol: string): (r: (string, string))
    ensures symbol !in KnownSymbols <==> r == ("", "")
    ensures symbol in KnownSymbols ==> r.0 + r.1 == symbol && r.0 != "" && r.1 != ""
    ensures r.1 in {"", "usdt", "eth"}
  {
    match symbol
    case "ethusdt" => ("eth", "usdt")
    case "fteth" => ("ft", "eth")
    case "zipeth" => ("zip", "eth")
    case "zileth" => ("zil", "eth")
    case _ => ("", "")
  }
}
