/** The wire records of the Bibox batched command protocol: the outbound
    envelope, the commands it carries, the inbound envelope and the typed
    results its payloads decode into. Go's `int` is 64 bits wide here. */
module BiboxData {
  import opened Wrappers
  import opened GoInt

  /** A payload kept undecoded, as the bytes of one element of the `result` array. */
  type Raw = seq<byte>

  /** A `float64` kept opaque as its IEEE-754 bit pattern; no arithmetic is done on it. */
  datatype Float64 = Float64(bits: bv64)

  /** The dynamic values a command body holds (Go's `interface{}` in `map[string]interface{}`). */
  datatype Value = Str(s: string) | Int(i: int64) | Uint(u: uint64) | Float(f: Float64)

  type Body = map<string, Value>

  /** The outbound envelope: the serialised command list as a string, the API key and the signature. */
  datatype Params = Params(cmds: string, apiKey: string, sign: string)

  /** One command. `index` has no omitempty tag, so an index left unset is sent as 0. */
  datatype Command = Command(cmd: string, index: int, body: Body)

  /** An error object of the server: a string code and a string message. */
  datatype ApiError = ApiError(code: string, msg: string)

  /** The inbound envelope: the `result` array in order and the `error` object,
      `None` when it is missing or null. A missing `result` reads as empty. */
  datatype Results = Results(result: seq<Raw>, error: Option<ApiError>)

  datatype SingleAsset = SingleAsset(
    coinSymbol: string, balance: string, freeze: string,
    btcValue: string, cnyValue: string, usdValue: string)

  datatype AssetsResult = AssetsResult(
    totalBtc: string, totalCny: string, totalUsd: string,
    assetsList: seq<SingleAsset>, cmd: string)

  datatype Order = Order(price: string, volume: string)

  datatype DepthResult = DepthResult(
    pair: string, updateTime: uint64, asks: seq<Order>, bids: seq<Order>, cmd: string)

  /** A per-item cancellation result: its own error, distinct from the batch
      error, a string acknowledgement and the echoed command name and index. */
  datatype CancelTradeResult = CancelTradeResult(
    error: Option<ApiError>, result: string, cmd: string, index: int64)

  /** A per-item trade result: its own error, distinct from the batch error,
      the unsigned order id and the echoed command name and index. */
  datatype TradeResult = TradeResult(
    error: Option<ApiError>, result: uint64, cmd: string, index: int64)

  datatype TradeBody = TradeBody(
    pair: string, accountType: int64, orderType: int64, orderSide: int64, payBix: int64,
    price: Float64, amount: Float64, money: Float64)

  /** The filter of a pending-order query. The sentinels "" (strings), -1
      (`accountType`, `hideCancel`) and 0 (`orderSide`) mean "no filter". */
  datatype PendingBody = PendingBody(
    pair: string, accountType: int64, page: int64, size: int64,
    coinSymbol: string, currencySymbol: string, orderSide: int64, hideCancel: int64)

  datatype PendingItem = PendingItem(
    id: int64, createdAt: uint64, accountType: int64,
    coinSymbol: string, currencySymbol: string, orderSide: int64, orderType: int64,
    price: string, amount: string, money: string,
    dealAmount: string, dealPercent: string, unexecuted: string, status: int64)

  datatype PendingResult = PendingResult(count: int64, page: int64, items: seq<PendingItem>, cmd: string)
}
