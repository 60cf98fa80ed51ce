/** The Bibox client: every call builds an ordered list of commands, serialises
    it once into the `cmds` string, signs exactly that string, wraps it in the
    three-field envelope, and after the round trip applies its own acceptance
    rule to the inbound envelope.

    JSON encoding of the command list, the HMAC-MD5 signature and the HTTP
    round trip (POST, read, unmarshal of the envelope) are collaborators passed
    in as `Io`; the per-item JSON decoding is a fallible function per call. */
module Bibox {
  import opened Wrappers
  import opened GoInt
  import opened BiboxData

  datatype Service = Service(url: string, apiKey: string, secretKey: string)

  /** The errors a call returns. Go returns plain `error` values; the
      constructor records where the error came from and the field its text. */
  datatype Error =
    | MarshalError(reason: string)    // json.Marshal of the command list failed
    | TransportError(reason: string)  // request, round trip, read or envelope unmarshal failed
    | ServerError(msg: string)        // the envelope's top-level error, by its `msg`
    | LengthError(msg: string)        // the result count is not the one the call expects
    | DecodeError(reason: string)     // one result payload failed to decode

  /** A POST of the JSON-encoded `params` to `url`. */
  datatype Request = Request(url: string, params: Params)

  /** The collaborators: the JSON encoder of a command list (it fails on NaN or
      infinite floats), the keyed digest `hmac(secret, data)`, and the round trip
      from a request to the decoded inbound envelope. */
  datatype Io = Io(
    marshal: seq<Command> -> Result<string, string>,
    hmac: (string, string) -> string,
    exchange: Request -> Result<Results, string>)

  /** What a batch trade or batch cancel returns: Go's `([]*T, error)` pair.
      The list and the error may both be present (dual channel). */
  datatype Reply<T> = Reply(items: seq<T>, err: Option<Error>)

  const TransferPath: string := "v1/transfer"
  const MarketDataPath: string := "v1/mdata"
  const OrderPendingPath: string := "v1/orderpending"

  const AssetsCmd: string := "transfer/assets"
  const DepthCmd: string := "api/depth"
  const TradeCmd: string := "orderpending/trade"
  const CancelTradeCmd: string := "orderpending/cancelTrade"
  const PendingListCmd: string := "orderpending/orderPendingList"
  const PendingHistoryCmd: string := "orderpending/pendingHistoryList"

  const AssetsLengthMsg: string := "get assets result length invalid"
  const DepthLengthMsg: string := "get depth result length invalid"
  const BatchDepthLengthMsg: string := "batch get depth length invalid"
  const TradeLengthMsg: string := "get trade result length invalid"
  const CancelLengthMsg: string := "get cancel trade result length invalid"
  const BatchCancelLengthMsg: string := "get batch cancel trade result length invalid"
  const PendingLengthMsg: string := "pending result length invalid"
  const PendingParseMsg: string := "parse pending result error"

  // ---------------------------------------------------------------------------
  // Command construction
  // ---------------------------------------------------------------------------

  /** Batch indices are the 1-based positions of the commands. */
  predicate Contiguous(cmds: seq<Command>) {
    forall i :: 0 <= i < |cmds| ==> cmds[i].index == i + 1
  }

  function AssetsCommand(): Command {
    Command(AssetsCmd, 0, map["select" := Int(1)])
  }

  function DepthCommand(pair: string, size: int64): Command {
    Command(DepthCmd, 0, map["pair" := Str(pair), "size" := Int(size)])
  }

  /** One depth command per pair, in the order of `pairs`, every index left at 0. */
  function BatchDepthCommands(pairs: seq<string>, size: int64): (cmds: seq<Command>)
    ensures |cmds| == |pairs|
    ensures forall i :: 0 <= i < |cmds| ==>
      && cmds[i].cmd == DepthCmd && cmds[i].index == 0
      && cmds[i].body.Keys == {"pair", "size"}
      && cmds[i].body["pair"] == Str(pairs[i]) && cmds[i].body["size"] == Int(size)
  {
    seq(|pairs|, i requires 0 <= i < |pairs| => DepthCommand(pairs[i], size))
  }

  /** The body of a trade command: all eight fields of the trade, always. */
  function TradeFields(t: TradeBody): Body {
    map[
      "pair" := Str(t.pair),
      "account_type" := Int(t.accountType),
      "order_type" := Int(t.orderType),
      "order_side" := Int(t.orderSide),
      "pay_bix" := Int(t.payBix),
      "price" := Float(t.price),
      "amount" := Float(t.amount),
      "money" := Float(t.money)]
  }

  function TradeCommand(t: TradeBody, index: int): (c: Command)
    ensures c.cmd == TradeCmd && c.index == index
    ensures TradeOf(c.body) == Some(t)
    ensures |c.body| == 8
  {
    TradeFieldsRoundTrip(t);
    Command(TradeCmd, index, TradeFields(t))
  }

  /** Reads a trade back out of a command body, failing when a field is missing or of the wrong kind. */
  function TradeOf(b: Body): Option<TradeBody> {
    if && "pair" in b && b["pair"].Str?
       && "account_type" in b && b["account_type"].Int?
       && "order_type" in b && b["order_type"].Int?
       && "order_side" in b && b["order_side"].Int?
       && "pay_bix" in b && b["pay_bix"].Int?
       && "price" in b && b["price"].Float?
       && "amount" in b && b["amount"].Float?
       && "money" in b && b["money"].Float?
    then Some(TradeBody(
      b["pair"].s, b["account_type"].i, b["order_type"].i, b["order_side"].i, b["pay_bix"].i,
      b["price"].f, b["amount"].f, b["money"].f))
    else None
  }

  /** A trade command carries its trade without loss. */
  lemma TradeFieldsRoundTrip(t: TradeBody)
    ensures TradeOf(TradeFields(t)) == Some(t)
    ensures |TradeFields(t)| == 8
  {
    var b := TradeFields(t);
    assert b.Keys == {"pair", "account_type", "order_type", "order_side", "pay_bix", "price", "amount", "money"};
  }

  /** One trade command per trade, in input order, with index = position + 1. */
  function BatchTradeCommands(trades: seq<TradeBody>): (cmds: seq<Command>)
    ensures |cmds| == |trades|
    ensures Contiguous(cmds)
    ensures forall i :: 0 <= i < |cmds| ==> cmds[i].cmd == TradeCmd && TradeOf(cmds[i].body) == Some(trades[i])
    ensures forall i :: 0 <= i < |cmds| ==> |cmds[i].body| == 8
  {
    seq(|trades|, i requires 0 <= i < |trades| => TradeCommand(trades[i], i + 1))
  }

  function CancelCommand(id: uint64, index: int): Command {
    Command(CancelTradeCmd, index, map["orders_id" := Uint(id)])
  }

  /** One cancel command per order id, in input order, with index = position + 1. */
  function BatchCancelCommands(ids: seq<uint64>): (cmds: seq<Command>)
    ensures |cmds| == |ids|
    ensures Contiguous(cmds)
    ensures forall i :: 0 <= i < |cmds| ==>
      cmds[i].cmd == CancelTradeCmd && cmds[i].body == map["orders_id" := Uint(ids[i])]
  {
    seq(|ids|, i requires 0 <= i < |ids| => CancelCommand(ids[i], i + 1))
  }

  /** The body of a pending-order query. `page` and `size` are always sent;
      every other field is left out exactly when it holds its sentinel, and
      only the history query (`history`) carries `hide_cancel`. */
  function PendingQuery(pb: PendingBody, history: bool): (b: Body)
    ensures "page" in b && b["page"] == Int(pb.page)
    ensures "size" in b && b["size"] == Int(pb.size)
    ensures "pair" in b <==> pb.pair != ""
    ensures "account_type" in b <==> pb.accountType != -1
    ensures "coin_symbol" in b <==> pb.coinSymbol != ""
    ensures "currency_symbol" in b <==> pb.currencySymbol != ""
    ensures "order_side" in b <==> pb.orderSide != 0
    ensures "hide_cancel" in b <==> history && pb.hideCancel != -1
    ensures b.Keys <= {"pair", "account_type", "page", "size", "coin_symbol", "currency_symbol", "order_side", "hide_cancel"}
  {
    var b := Filters(pb)["page" := Int(pb.page)]["size" := Int(pb.size)];
    if history && pb.hideCancel != -1 then b["hide_cancel" := Int(pb.hideCancel)] else b
  }

  /** The optional fields of a pending-order query, each present exactly when
      it is not its sentinel. */
  function Filters(pb: PendingBody): (b: Body)
    ensures "pair" in b <==> pb.pair != ""
    ensures "account_type" in b <==> pb.accountType != -1
    ensures "coin_symbol" in b <==> pb.coinSymbol != ""
    ensures "currency_symbol" in b <==> pb.currencySymbol != ""
    ensures "order_side" in b <==> pb.orderSide != 0
    ensures b.Keys <= {"pair", "account_type", "coin_symbol", "currency_symbol", "order_side"}
    ensures "pair" in b ==> b["pair"] == Str(pb.pair)
    ensures "account_type" in b ==> b["account_type"] == Int(pb.accountType)
    ensures "coin_symbol" in b ==> b["coin_symbol"] == Str(pb.coinSymbol)
    ensures "currency_symbol" in b ==> b["currency_symbol"] == Str(pb.currencySymbol)
    ensures "order_side" in b ==> b["order_side"] == Int(pb.orderSide)
  {
    var b0: Body := map[];
    var b1 := if pb.pair != "" then b0["pair" := Str(pb.pair)] else b0;
    var b2 := if pb.accountType != -1 then b1["account_type" := Int(pb.accountType)] else b1;
    var b3 := if pb.coinSymbol != "" then b2["coin_symbol" := Str(pb.coinSymbol)] else b2;
    var b4 := if pb.currencySymbol != "" then b3["currency_symbol" := Str(pb.currencySymbol)] else b3;
    if pb.orderSide != 0 then b4["order_side" := Int(pb.orderSide)] else b4
  }

  function StrOr(b: Body, key: string, absent: string): Option<string> {
    if key !in b then Some(absent) else if b[key].Str? then Some(b[key].s) else None
  }

  function IntOr(b: Body, key: string, absent: int64): Option<int64> {
    if key !in b then Some(absent) else if b[key].Int? then Some(b[key].i) else None
  }

  /** Reads a pending-order filter back out of a query body, putting each
      field's sentinel back where the field is missing; `page` and `size` must be present. */
  function PendingOf(b: Body): Option<PendingBody> {
    var pair := StrOr(b, "pair", "");
    var accountType := IntOr(b, "account_type", -1);
    var coin := StrOr(b, "coin_symbol", "");
    var currency := StrOr(b, "currency_symbol", "");
    var side := IntOr(b, "order_side", 0);
    var hideCancel := IntOr(b, "hide_cancel", -1);
    if && "page" in b && b["page"].Int? && "size" in b && b["size"].Int?
       && pair.Some? && accountType.Some? && coin.Some? && currency.Some? && side.Some? && hideCancel.Some?
    then Some(PendingBody(pair.value, accountType.value, b["page"].i, b["size"].i,
                          coin.value, currency.value, side.value, hideCancel.value))
    else None
  }

  /** Leaving fields out at their sentinels loses nothing: the history query
      carries the whole filter, the current query all of it but `hide_cancel`. */
  lemma PendingQueryRoundTrip(pb: PendingBody)
    ensures PendingOf(PendingQuery(pb, true)) == Some(pb)
    ensures PendingOf(PendingQuery(pb, false)) == Some(pb.(hideCancel := -1))
  {
  }

  function CurrentPendingCommand(pb: PendingBody): Command {
    Command(PendingListCmd, 1, PendingQuery(pb, false))
  }

  function HistoryPendingCommand(pb: PendingBody): Command {
    Command(PendingHistoryCmd, 1, PendingQuery(pb, true))
  }

  // ---------------------------------------------------------------------------
  // Signing and the outbound envelope
  // ---------------------------------------------------------------------------

  /** The signature of an envelope is the digest of exactly its `cmds` string. */
  predicate Signed(p: Params, secret: string, hmac: (string, string) -> string) {
    p.sign == hmac(secret, p.cmds)
  }

  /** Serialises the command list once, signs that very string and wraps
      both with the API key; fails only when serialisation fails. */
  function Prepare(svc: Service, path: string, cmds: seq<Command>, io: Io): (r: Result<Request, Error>)
    ensures r.Failure? <==> io.marshal(cmds).Failure?
    ensures r.Failure? ==> r.error == MarshalError(io.marshal(cmds).error)
    ensures r.Success? ==>
      && r.value.url == svc.url + path
      && r.value.params.cmds == io.marshal(cmds).value
      && r.value.params.apiKey == svc.apiKey
      && Signed(r.value.params, svc.secretKey, io.hmac)
  {
    match io.marshal(cmds)
    case Failure(e) => Failure(MarshalError(e))
    case Success(text) => Success(Request(svc.url + path, Params(text, svc.apiKey, io.hmac(svc.secretKey, text))))
  }

  /** The inbound envelope for `cmds`: prepare the signed request, then hand
      it to the round trip. */
  function Exchange(svc: Service, path: string, cmds: seq<Command>, io: Io): (r: Result<Results, Error>)
    ensures r.Success? ==> Prepare(svc, path, cmds, io).Success?
    ensures r.Success? ==> io.exchange(Prepare(svc, path, cmds, io).value) == Success(r.value)
    ensures Prepare(svc, path, cmds, io).Failure? ==> r == Failure(MarshalError(io.marshal(cmds).error))
    ensures Prepare(svc, path, cmds, io).Success? && io.exchange(Prepare(svc, path, cmds, io).value).Failure? ==>
      r == Failure(TransportError(io.exchange(Prepare(svc, path, cmds, io).value).error))
    ensures Prepare(svc, path, cmds, io).Success? && io.exchange(Prepare(svc, path, cmds, io).value).Success? ==>
      r == Success(io.exchange(Prepare(svc, path, cmds, io).value).value)
  {
    var req :- Prepare(svc, path, cmds, io);
    match io.exchange(req)
    case Failure(e) => Failure(TransportError(e))
    case Success(res) => Success(res)
  }

  // ---------------------------------------------------------------------------
  // Acceptance of the inbound envelope
  // ---------------------------------------------------------------------------

  function Decoded<T>(d: Result<T, string>): Result<T, Error> {
    match d
    case Success(v) => Success(v)
    case Failure(e) => Failure(DecodeError(e))
  }

  /** Decodes every payload in order, stopping at the first one that fails. */
  function DecodeAll<T>(raws: seq<Raw>, decode: Raw -> Result<T, string>): (r: Result<seq<T>, Error>)
    ensures r.Success? <==> forall i :: 0 <= i < |raws| ==> decode(raws[i]).Success?
    ensures r.Success? ==> |r.value| == |raws|
    ensures r.Success? ==> forall i :: 0 <= i < |raws| ==> decode(raws[i]) == Success(r.value[i])
    ensures r.Failure? ==> exists i :: 0 <= i < |raws| && FirstFailure(raws, decode, i) && r.error == DecodeError(decode(raws[i]).error)
    decreases |raws|
  {
    if |raws| == 0 then Success([])
    else match decode(raws[0])
      case Failure(e) =>
        assert FirstFailure(raws, decode, 0);
        Failure(DecodeError(e))
      case Success(x) =>
        match DecodeAll(raws[1..], decode)
        case Failure(e) =>
          ghost var j :| 0 <= j < |raws| - 1 && FirstFailure(raws[1..], decode, j) && e == DecodeError(decode(raws[1..][j]).error);
          assert FirstFailure(raws, decode, j + 1);
          Failure(e)
        case Success(xs) => Success([x] + xs)
  }

  /** Item `i` is the first payload that fails to decode. */
  ghost predicate FirstFailure<T>(raws: seq<Raw>, decode: Raw -> Result<T, string>, i: int)
    requires 0 <= i < |raws|
  {
    decode(raws[i]).Failure? && forall j :: 0 <= j < i ==> decode(raws[j]).Success?
  }

  /** The rule of every single-command call: a top-level error fails the call
      with its message first; only then must there be exactly one result, which
      is decoded. */
  function AcceptSingle<T>(res: Results, lengthMsg: string, decode: Raw -> Result<T, Error>): (r: Result<T, Error>)
    ensures res.error.Some? ==> r == Failure(ServerError(res.error.value.msg))
    ensures res.error.None? && |res.result| != 1 ==> r == Failure(LengthError(lengthMsg))
    ensures r.Success? <==> res.error.None? && |res.result| == 1 && decode(res.result[0]).Success?
    ensures res.error.None? && |res.result| == 1 ==> r == decode(res.result[0])
  {
    if res.error.Some? then Failure(ServerError(res.error.value.msg))
    else if |res.result| != 1 then Failure(LengthError(lengthMsg))
    else decode(res.result[0])
  }

  /** The rule of `GetBatchDepth`: a top-level error fails first, then an empty
      result array; then every payload is decoded, and only then is the count
      compared with the number of pairs. */
  function AcceptBatchDepth<T>(res: Results, pairs: nat, decode: Raw -> Result<T, string>): (r: Result<seq<T>, Error>)
    ensures res.error.Some? ==> r == Failure(ServerError(res.error.value.msg))
    ensures res.error.None? && |res.result| == 0 ==> r == Failure(LengthError(DepthLengthMsg))
    ensures r.Success? <==>
      && res.error.None? && 0 < |res.result| == pairs
      && forall i :: 0 <= i < |res.result| ==> decode(res.result[i]).Success?
    ensures r.Success? ==> |r.value| == pairs && forall i :: 0 <= i < pairs ==> decode(res.result[i]) == Success(r.value[i])
    ensures res.error.None? && 0 < |res.result| && DecodeAll(res.result, decode).Failure? ==> r == DecodeAll(res.result, decode)
    ensures res.error.None? && 0 < |res.result| != pairs && DecodeAll(res.result, decode).Success? ==>
      r == Failure(LengthError(BatchDepthLengthMsg))
  {
    if res.error.Some? then Failure(ServerError(res.error.value.msg))
    else if |res.result| == 0 then Failure(LengthError(DepthLengthMsg))
    else
      var items :- DecodeAll(res.result, decode);
      if |items| != pairs then Failure(LengthError(BatchDepthLengthMsg))
      else Success(items)
  }

  /** The rule of `BatchTrade` and `BatchCancelTrade`: the count is checked
      first, whatever the top-level error; then every payload is decoded; a
      top-level error is returned beside the decoded list, not instead of it. */
  function AcceptBatch<T>(res: Results, n: nat, lengthMsg: string, decode: Raw -> Result<T, string>): (r: Reply<T>)
    ensures |res.result| != n ==> r == Reply([], Some(LengthError(lengthMsg)))
    ensures |res.result| == n && DecodeAll(res.result, decode).Failure? ==>
      r == Reply([], Some(DecodeAll(res.result, decode).error))
    ensures |res.result| == n && (forall i :: 0 <= i < n ==> decode(res.result[i]).Success?) ==>
      && |r.items| == n
      && (forall i :: 0 <= i < n ==> decode(res.result[i]) == Success(r.items[i]))
      && r.err == (if res.error.Some? then Some(ServerError(res.error.value.msg)) else None)
  {
    if |res.result| != n then Reply([], Some(LengthError(lengthMsg)))
    else match DecodeAll(res.result, decode)
      case Failure(e) => Reply([], Some(e))
      case Success(items) =>
        if res.error.Some? then Reply(items, Some(ServerError(res.error.value.msg)))
        else Reply(items, None)
  }

  /** A dual-channel reply is never thrown away: whenever the count matches
      and every item decodes, the items come back even beside a batch error,
      and a reply with items always has exactly one item per submitted command. */
  lemma AcceptBatchKeepsItems<T>(res: Results, n: nat, lengthMsg: string, decode: Raw -> Result<T, string>)
    ensures var r := AcceptBatch(res, n, lengthMsg, decode);
      (|r.items| > 0 || r.err.None?) ==> |r.items| == n == |res.result| && DecodeAll(res.result, decode).Success?
    ensures var r := AcceptBatch(res, n, lengthMsg, decode);
      |res.result| == n && DecodeAll(res.result, decode).Success? && res.error.Some? ==>
        r.items == DecodeAll(res.result, decode).value && r.err == Some(ServerError(res.error.value.msg))
  {
  }

  // ---------------------------------------------------------------------------
  // The calls
  // ---------------------------------------------------------------------------

  /** Whether the round trip for `cmds` produced an envelope with no top-level
      error and exactly `n` results. */
  predicate Clean(x: Result<Results, Error>, n: nat) {
    x.Success? && x.value.error.None? && |x.value.result| == n
  }

  /** Every outcome of a single-command call whose round trip gave `x`: a
      failed exchange is passed on, a top-level error fails with its message,
      a count other than one fails with `lengthMsg`, and a clean answer gives
      exactly the decode of its one result. */
  ghost predicate SingleOutcome<T>(x: Result<Results, Error>, lengthMsg: string, decode: Raw -> Result<T, Error>,
                                   r: Result<T, Error>)
  {
    && (x.Failure? ==> r == Failure(x.error))
    && (x.Success? && x.value.error.Some? ==> r == Failure(ServerError(x.value.error.value.msg)))
    && (x.Success? && x.value.error.None? && |x.value.result| != 1 ==> r == Failure(LengthError(lengthMsg)))
    && (Clean(x, 1) ==> r == decode(x.value.result[0]))
  }

  /** A single-command call succeeds exactly when the signed request went out,
      the answer had no top-level error and exactly one result, and that result decoded. */
  lemma SingleOutcomeSucceeds<T>(x: Result<Results, Error>, lengthMsg: string, decode: Raw -> Result<T, Error>,
                                 r: Result<T, Error>)
    requires SingleOutcome(x, lengthMsg, decode, r)
    ensures r.Success? <==> Clean(x, 1) && decode(x.value.result[0]).Success?
    ensures r.Success? ==> decode(x.value.result[0]) == Success(r.value)
  {
  }

  function SingleCall<T>(svc: Service, path: string, cmd: Command, lengthMsg: string, io: Io,
                         decode: Raw -> Result<T, Error>): (r: Result<T, Error>)
    ensures SingleOutcome(Exchange(svc, path, [cmd], io), lengthMsg, decode, r)
  {
    var res :- Exchange(svc, path, [cmd], io);
    AcceptSingle(res, lengthMsg, decode)
  }

  /** A payload that does not decode fails with the decoder's own error. */
  function Decoding<T>(decode: Raw -> Result<T, string>): Raw -> Result<T, Error> {
    (raw: Raw) => Decoded(decode(raw))
  }

  function GetAssets(svc: Service, io: Io, decode: Raw -> Result<AssetsResult, string>): (r: Result<AssetsResult, Error>)
    ensures SingleOutcome(Exchange(svc, TransferPath, [AssetsCommand()], io), AssetsLengthMsg, Decoding(decode), r)
  {
    SingleCall(svc, TransferPath, AssetsCommand(), AssetsLengthMsg, io, Decoding(decode))
  }

  function GetDepth(svc: Service, pair: string, size: int64, io: Io,
                    decode: Raw -> Result<DepthResult, string>): (r: Result<DepthResult, Error>)
    ensures SingleOutcome(Exchange(svc, MarketDataPath, [DepthCommand(pair, size)], io), DepthLengthMsg, Decoding(decode), r)
  {
    SingleCall(svc, MarketDataPath, DepthCommand(pair, size), DepthLengthMsg, io, Decoding(decode))
  }

  function GetBatchDepth(svc: Service, pairs: seq<string>, size: int64, io: Io,
                         decode: Raw -> Result<DepthResult, string>): (r: Result<seq<DepthResult>, Error>)
    ensures var x := Exchange(svc, MarketDataPath, BatchDepthCommands(pairs, size), io);
      r.Success? <==> Clean(x, |pairs|) && |pairs| > 0 && DecodeAll(x.value.result, decode).Success?
    ensures var x := Exchange(svc, MarketDataPath, BatchDepthCommands(pairs, size), io);
      r.Success? ==> |r.value| == |pairs| && forall i :: 0 <= i < |pairs| ==> decode(x.value.result[i]) == Success(r.value[i])
    ensures var x := Exchange(svc, MarketDataPath, BatchDepthCommands(pairs, size), io);
      x.Success? && x.value.error.Some? ==> r == Failure(ServerError(x.value.error.value.msg))
    ensures var x := Exchange(svc, MarketDataPath, BatchDepthCommands(pairs, size), io);
      x.Success? && x.value.error.None? && |x.value.result| == 0 ==> r == Failure(LengthError(DepthLengthMsg))
    ensures var x := Exchange(svc, MarketDataPath, BatchDepthCommands(pairs, size), io);
      x.Failure? ==> r == Failure(x.error)
    ensures var x := Exchange(svc, MarketDataPath, BatchDepthCommands(pairs, size), io);
      x.Success? && x.value.error.None? && 0 < |x.value.result| && DecodeAll(x.value.result, decode).Failure? ==>
        r == DecodeAll(x.value.result, decode)
    ensures var x := Exchange(svc, MarketDataPath, BatchDepthCommands(pairs, size), io);
      x.Success? && x.value.error.None? && 0 < |x.value.result| != |pairs| && DecodeAll(x.value.result, decode).Success? ==>
        r == Failure(LengthError(BatchDepthLengthMsg))
  {
    var res :- Exchange(svc, MarketDataPath, BatchDepthCommands(pairs, size), io);
    AcceptBatchDepth(res, |pairs|, decode)
  }

  function Trade(svc: Service, t: TradeBody, io: Io, decode: Raw -> Result<TradeResult, string>): (r: Result<TradeResult, Error>)
    ensures SingleOutcome(Exchange(svc, OrderPendingPath, [TradeCommand(t, 1)], io), TradeLengthMsg, Decoding(decode), r)
  {
    SingleCall(svc, OrderPendingPath, TradeCommand(t, 1), TradeLengthMsg, io, Decoding(decode))
  }

  function BatchTrade(svc: Service, trades: seq<TradeBody>, io: Io,
                      decode: Raw -> Result<TradeResult, string>): (r: Reply<TradeResult>)
    ensures var x := Exchange(svc, OrderPendingPath, BatchTradeCommands(trades), io);
      x.Failure? ==> r == Reply([], Some(x.error))
    ensures var x := Exchange(svc, OrderPendingPath, BatchTradeCommands(trades), io);
      x.Success? && |x.value.result| != |trades| ==> r == Reply([], Some(LengthError(TradeLengthMsg)))
    ensures var x := Exchange(svc, OrderPendingPath, BatchTradeCommands(trades), io);
      x.Success? && |x.value.result| == |trades| && DecodeAll(x.value.result, decode).Failure? ==>
        r == Reply([], Some(DecodeAll(x.value.result, decode).error))
    ensures var x := Exchange(svc, OrderPendingPath, BatchTradeCommands(trades), io);
      |r.items| > 0 || r.err.None? ==>
        && x.Success? && |x.value.result| == |trades| == |r.items|
        && (forall i :: 0 <= i < |trades| ==> decode(x.value.result[i]) == Success(r.items[i]))
        && (r.err.None? <==> x.value.error.None?)
    ensures var x := Exchange(svc, OrderPendingPath, BatchTradeCommands(trades), io);
      x.Success? && |x.value.result| == |trades| && DecodeAll(x.value.result, decode).Success? ==>
        r == Reply(DecodeAll(x.value.result, decode).value,
                   if x.value.error.Some? then Some(ServerError(x.value.error.value.msg)) else None)
  {
    match Exchange(svc, OrderPendingPath, BatchTradeCommands(trades), io)
    case Failure(e) => Reply([], Some(e))
    case Success(res) => AcceptBatch(res, |trades|, TradeLengthMsg, decode)
  }

  function CancelTrade(svc: Service, id: uint64, io: Io,
                       decode: Raw -> Result<CancelTradeResult, string>): (r: Result<CancelTradeResult, Error>)
    ensures SingleOutcome(Exchange(svc, OrderPendingPath, [CancelCommand(id, 1)], io), CancelLengthMsg, Decoding(decode), r)
  {
    SingleCall(svc, OrderPendingPath, CancelCommand(id, 1), CancelLengthMsg, io, Decoding(decode))
  }

  function BatchCancelTrade(svc: Service, ids: seq<uint64>, io: Io,
                            decode: Raw -> Result<CancelTradeResult, string>): (r: Reply<CancelTradeResult>)
    ensures var x := Exchange(svc, OrderPendingPath, BatchCancelCommands(ids), io);
      x.Failure? ==> r == Reply([], Some(x.error))
    ensures var x := Exchange(svc, OrderPendingPath, BatchCancelCommands(ids), io);
      x.Success? && |x.value.result| != |ids| ==> r == Reply([], Some(LengthError(BatchCancelLengthMsg)))
    ensures var x := Exchange(svc, OrderPendingPath, BatchCancelCommands(ids), io);
      x.Success? && |x.value.result| == |ids| && DecodeAll(x.value.result, decode).Failure? ==>
        r == Reply([], Some(DecodeAll(x.value.result, decode).error))
    ensures var x := Exchange(svc, OrderPendingPath, BatchCancelCommands(ids), io);
      |r.items| > 0 || r.err.None? ==>
        && x.Success? && |x.value.result| == |ids| == |r.items|
        && (forall i :: 0 <= i < |ids| ==> decode(x.value.result[i]) == Success(r.items[i]))
        && (r.err.None? <==> x.value.error.None?)
    ensures var x := Exchange(svc, OrderPendingPath, BatchCancelCommands(ids), io);
      x.Success? && |x.value.result| == |ids| && DecodeAll(x.value.result, decode).Success? ==>
        r == Reply(DecodeAll(x.value.result, decode).value,
                   if x.value.error.Some? then Some(ServerError(x.value.error.value.msg)) else None)
  {
    match Exchange(svc, OrderPendingPath, BatchCancelCommands(ids), io)
    case Failure(e) => Reply([], Some(e))
    case Success(res) => AcceptBatch(res, |ids|, BatchCancelLengthMsg, decode)
  }

  /** A pending-list decode failure is reported with one fixed message. */

  /** A pending-list decode failure is reported with one fixed message. */
  function PendingDecoded(d: Result<PendingResult, string>): (r: Result<PendingResult, Error>)
    ensures d.Success? ==> r == Success(d.value)
    ensures d.Failure? ==> r == Failure(DecodeError(PendingParseMsg))
  {
    if d.Success? then Success(d.value) else Failure(DecodeError(PendingParseMsg))
  }

  function PendingDecoding(decode: Raw -> Result<PendingResult, string>): Raw -> Result<PendingResult, Error> {
    (raw: Raw) => PendingDecoded(decode(raw))
  }

  function CurrentPending(svc: Service, pb: PendingBody, io: Io,
                          decode: Raw -> Result<PendingResult, string>): (r: Result<PendingResult, Error>)
    ensures SingleOutcome(Exchange(svc, OrderPendingPath, [CurrentPendingCommand(pb)], io), PendingLengthMsg, PendingDecoding(decode), r)
  {
    SingleCall(svc, OrderPendingPath, CurrentPendingCommand(pb), PendingLengthMsg, io, PendingDecoding(decode))
  }

  function HistoryPending(svc: Service, pb: PendingBody, io: Io,
                          decode: Raw -> Result<PendingResult, string>): (r: Result<PendingResult, Error>)
    ensures SingleOutcome(Exchange(svc, OrderPendingPath, [HistoryPendingCommand(pb)], io), PendingLengthMsg, PendingDecoding(decode), r)
  {
    SingleCall(svc, OrderPendingPath, HistoryPendingCommand(pb), PendingLengthMsg, io, PendingDecoding(decode))
  }
}
