# Exchange clients: Bibox batched commands and FCoin canonical signing

A Dafny model of the decision and formatting logic of two exchange clients
in a Go trading library.

**Bibox.** Every call does the same things in order:

1. builds an ordered list of commands `{cmd, index, body}`;
2. serialises the list once into the `cmds` string;
3. signs exactly that string;
4. wraps the string, the API key and the signature in a three-field envelope;
5. after the round trip, applies that call's own acceptance rule to the
   inbound envelope `{result[], error}`.

The acceptance rules differ by call:

- Single-command calls check the top-level error first, then the count.
- `GetBatchDepth` rejects an empty result array. It decodes every item
  before it compares the count with the pairs.
- `BatchTrade` and `BatchCancelTrade` check the count first, whatever the
  error says. They hand back the top-level error beside the decoded items
  (the "dual channel").

**FCoin.** The model covers:

- the canonical `k=v&k=v` string of a `url.Values` (`sortedBody`), and the
  same string put in place of a URL's query (`sortedURI`);
- the signing pre-image: verb, URI, millisecond timestamp and body;
- the request that is sent: its headers and its JSON body;
- the status mapping 0 / 2000 / other;
- the `limit` default;
- the split of a millisecond server time;
- the order-finished predicate and the symbol table.

**Collaborators as parameters.** JSON encoding and decoding, HMAC-MD5,
HMAC-SHA1, base64, UTF-8, the clock and HTTP are not modelled. Each is
passed in as a function-typed parameter:

- `Bibox.Io` holds the command-list encoder, the keyed digest and the round
  trip;
- `Fcoin.Crypto` holds UTF-8, base64 and HMAC-SHA1;
- every call takes a `send` function and a per-payload `decode` function,
  and either may fail.

**Go semantics.** Go's 64-bit `int` overflow (`GoInt.Wrap64`) is written out,
and so are its truncating `/` and `%` (`GoInt.Quot`, `GoInt.Rem`) and the
normalisation done by `time.Unix`. Go compares strings byte by byte; the model
orders strings lexicographically by character (`Text.Below`).

Modules:

| file | module | contents |
|---|---|---|
| wrappers.dfy | Wrappers | `Option`, `Result` |
| text.dfy | Text | string order, `strings.Join`/`Split`, `strconv.Itoa` and its inverse, ASCII upper-casing |
| goint.dfy | GoInt | `int64`/`uint64`, wrap-around, truncating division |
| bibox_data.dfy | BiboxData | wire records of the Bibox protocol |
| bibox.dfy | Bibox | command construction, signing, acceptance rules, the nine calls |
| fcoin_util.dfy | FcoinUtil | `url.Values`, key sorting, `sortedBody`, `sortedURI` |
| fcoin.dfy | Fcoin | signing, requests, status mapping, paging, server time, orders, coins |

Details of the code that the model keeps:

- One payload that fails to decode fails a whole batch, with no results.
- A count mismatch is reported by a fixed message, one per call, without
  the counts.
- A server error is reported by its message alone; its code is dropped.
- `GetAssets`, `GetDepth` and every command of `GetBatchDepth` leave the
  command index unset, so it is sent as 0. The other calls number their
  commands from 1.

## Model

| member | source | states |
|---|---|---|
| Bibox.BatchDepthCommands | bibox/bibox.go:149-157 | one `api/depth` command per pair, in order, each with index 0 and a body of exactly `pair` and `size` |
| Bibox.TradeCommand | bibox/bibox.go:216-227 | a trade command carries its trade and nothing else: the body has exactly eight entries and reading it back gives the trade |
| Bibox.TradeFieldsRoundTrip | bibox/bibox.go:286-294 | the eight-field trade body reads back to the same trade, so no field is lost or confused |
| Bibox.BatchTradeCommands | bibox/bibox.go:281-296 | one trade command per trade, in input order, indices 1..N, and each body has exactly eight entries and reads back to its trade |
| Bibox.BatchCancelCommands | bibox/bibox.go:409-418 | one cancel command per id, in input order, indices 1..N, each body holding just that id |
| Bibox.Filters | bibox/bibox.go:478-494 | each optional filter key is present exactly when its field is not the sentinel ("" / -1 / 0), and then holds that field |
| Bibox.PendingQuery | bibox/bibox.go:552-571 | `page` and `size` are always sent; every optional key is present exactly when its field is not the sentinel; `hide_cancel` only in the history query and only when not -1; no other keys |
| Bibox.PendingQueryRoundTrip | bibox/bibox.go:552-571 | omitting fields at their sentinels loses nothing: the history query reads back to the whole filter, the current query to all but `hide_cancel` |
| Bibox.Prepare | bibox/bibox.go:40-46 | fails exactly when serialising the commands fails; otherwise the envelope's `cmds` is the serialised string and its signature is the digest of that very string |
| Bibox.Exchange | bibox/bibox.go:40-71 | a serialisation failure comes back as a marshal error, a transport failure as a transport error, and otherwise the result is exactly the round trip's answer to the prepared request |
| Bibox.DecodeAll | bibox/bibox.go:196-203 | succeeds exactly when every payload decodes, giving one item per payload in order; otherwise fails with the error of the first payload that does not decode |
| Bibox.AcceptSingle | bibox/bibox.go:72-82 | a top-level error fails with its message before anything else; then any count other than one fails with the call's length message; otherwise the one payload is decoded |
| Bibox.AcceptBatchDepth | bibox/bibox.go:190-207 | fails on a top-level error, then on an empty array, then on the first decode failure, then on a count different from the pairs; succeeds exactly when there is no error, the count equals the pairs, and all decode |
| Bibox.AcceptBatch | bibox/bibox.go:329-343 | a count mismatch fails with no items even beside a top-level error; a decode failure fails with no items; otherwise every item comes back in order, with the top-level error alongside |
| Bibox.AcceptBatchKeepsItems | bibox/bibox.go:450-465 | a reply with items, or without error, always has one item per submitted command; with the count matching and every item decoding, the items survive a top-level error |
| Bibox.SingleCall | bibox/bibox.go:262-272 | a single-command call succeeds exactly when the signed request went out, the answer had no error and one result, and that result decoded; a failed exchange is passed on unchanged; a top-level error fails with its message, a wrong count with the call's message, and a clean answer gives exactly the decode of its one result |
| Bibox.SingleOutcomeSucceeds | bibox/bibox.go:72-82 | the outcome table of a single-command call admits success exactly when the answer is clean with one result that decodes, and the success value is that decode |
| Bibox.GetAssets | bibox/bibox.go:29-83 | success exactly on a clean one-result answer that decodes; a failed exchange is passed on; a server error by its message; any other count as "get assets result length invalid"; a payload that does not decode by the decoder's error |
| Bibox.GetDepth | bibox/bibox.go:86-141 | the same outcomes as `GetAssets`, with "get depth result length invalid" |
| Bibox.GetBatchDepth | bibox/bibox.go:144-208 | success exactly when the answer has no error, one result per pair and at least one, and all decode, with the decoded results in order; a failed exchange is passed on; then a server error by its message, an empty array as "get depth result length invalid", the first decode failure by its error, and a wrong count as "batch get depth length invalid" |
| Bibox.Trade | bibox/bibox.go:211-273 | the outcomes of `GetAssets` for one trade command with index 1, with "get trade result length invalid" |
| Bibox.BatchTrade | bibox/bibox.go:276-344 | a failed exchange, a wrong count or a payload that does not decode gives no items and that error; any items come one per trade, in order, decoded from the results, with the top-level error beside them when there is one |
| Bibox.CancelTrade | bibox/bibox.go:347-402 | the outcomes of `GetAssets` for one cancel command with index 1, with "get cancel trade result length invalid" |
| Bibox.BatchCancelTrade | bibox/bibox.go:405-466 | as `BatchTrade`, for cancellations, with "get batch cancel trade result length invalid" |
| Bibox.PendingDecoded | bibox/bibox.go:534-539 | a pending-list decode failure is reported with the fixed message "parse pending result error" |
| Bibox.CurrentPending | bibox/bibox.go:469-540 | the outcomes of a single-command call with "pending result length invalid"; a failed exchange is passed on; a payload that does not decode fails with the fixed "parse pending result error" |
| Bibox.HistoryPending | bibox/bibox.go:543-617 | the same, for the history query |
| FcoinUtil.SortedKeys | fcoin/util.go:34-38 | the keys of a set, each once, strictly ascending |
| FcoinUtil.SortedUnique | fcoin/util.go:38 | a set of keys has only one strictly ascending order |
| FcoinUtil.SortStrings | fcoin/util.go:38 | the sorted output is ascending and a permutation of its input |
| FcoinUtil.SortIgnoresIterationOrder | fcoin/util.go:34-38 | sorting the keys gives the same sequence whatever order the map yields them in |
| FcoinUtil.SortedBody | fcoin/util.go:33-43 | the canonical string is empty exactly when the map is empty |
| FcoinUtil.SortedBodyFromAnyOrder | fcoin/util.go:33-43 | the string computed from any iteration order equals the canonical one, so insertion order does not matter |
| FcoinUtil.Pairs | fcoin/util.go:39-41 | the listed pairs: every key exactly once, strictly ascending, each with its first value |
| FcoinUtil.SortedBodyParses | fcoin/util.go:39-42 | when no key holds '&' or '=' and no value holds '&', cutting the canonical string at '&' and '=' gives back exactly the sorted first-value pairs |
| FcoinUtil.ParseUri | fcoin/util.go:20 | the part before the query holds no '?'; a URL with a '?' is that part, the '?' and the raw query; a URL without one has an empty query; the query is forced exactly when the URL's only '?' is its last character |
| FcoinUtil.ParseUriRoundTrip | fcoin/util.go:20-30 | writing a parsed URL back with `String` gives the URL it was parsed from, so the split loses nothing |
| FcoinUtil.SortedUri | fcoin/util.go:19-31 | with parameters the query is exactly the canonical string of the parameters; without them the old query is dropped, and the '?' stays only when the URL ended in a lone '?' |
| FcoinUtil.SortedUriIgnoresOldQuery | fcoin/util.go:29 | whatever query the URL had is replaced, never merged |
| Fcoin.CheckStatus | fcoin/fcoin.go:76-84 | status 0 and only 0 gives the data; 2000 is the account error; any other status an error carrying status and message |
| Fcoin.StatusErrorTextCarriesStatus | fcoin/fcoin.go:80 | the text "response status is N msg M" holds the prefix, the status in decimal that reads back to it, then " msg " and the message |
| Fcoin.Timestamp | fcoin/fcoin.go:39 | the timestamp reads back to seconds × 1000 under 64-bit wrap-around, and to the exact product when it fits |
| Fcoin.FirstValues | fcoin/fcoin.go:126-133 | the JSON body has the same keys as the values, each with that key's first value |
| Fcoin.AsValues | fcoin/fcoin.go:50-52 | a JSON body read back as values has the same keys and the same first values; no body reads as no values |
| Fcoin.FirstValuesMatchPairs | fcoin/fcoin.go:126-133 | the JSON body lists exactly the pairs the signed canonical body lists |
| Fcoin.SortedBodyOfFirstValues | fcoin/fcoin.go:40 | the canonical string depends only on the keys and their first values |
| Fcoin.ContentHeaders | fcoin/fcoin.go:58-60 | Content-Type is `application/json` for POST and PUT and absent otherwise |
| Fcoin.SignedHeaders | fcoin/fcoin.go:58-63 | the key, signature and timestamp headers each read back to their value, and Content-Type as above |
| Fcoin.AuthorizedRequest | fcoin/fcoin.go:36-63 | the verb is upper-cased, the URI is the sorted URI, the body is the first-value JSON; the signature header is base64(HMAC-SHA1(secret, base64(verb ++ URI ++ timestamp ++ sorted body))) over the very verb, URI and timestamp that are sent |
| Fcoin.AuthorizedRequestVerifies | fcoin/fcoin.go:36-63 | a receiver recomputing the signature from the request as received, with the JSON body read back, gets the signature that was sent |
| Fcoin.PublicRequest | fcoin/fcoin.go:87-102 | the same verb, URI and body as a signed request; the only header it may carry is Content-Type, for POST and PUT |
| Fcoin.Answer | fcoin/fcoin.go:64-84 | a transport failure is passed on; otherwise the status mapping applies |
| Fcoin.Authorization | fcoin/fcoin.go:36-85 | a signed call gives the data exactly when the round trip succeeds with status 0; a round-trip failure comes back as a transport error; 2000 and other statuses map as above |
| Fcoin.Public | fcoin/fcoin.go:87-124 | an unsigned call with the same outcomes: data on status 0, a transport error on a round-trip failure, the status mapping otherwise |
| Fcoin.SameStatusMapping | fcoin/fcoin.go:115-123 | given the same answer, a signed and an unsigned call end the same way |
| Fcoin.DefaultLimit | fcoin/fcoin.go:244-247 | a limit of 0 becomes 20; every other limit is kept |
| Fcoin.PagingKeys | fcoin/fcoin.go:242-247 | the paging query has exactly the keys `before` and `limit`, in that sorted order |
| Fcoin.PagingQueryCanonical | fcoin/fcoin.go:242-247 | the pairs the paging query's canonical string is made of are `before` then `limit`, each with its one value, the limit defaulted and in decimal |
| Fcoin.DefaultLimitRendered | fcoin/fcoin.go:244-247 | the default limit goes on the wire as the text "20" |
| Fcoin.UnixTime | fcoin/fcoin.go:148 | `time.Unix` keeps nanoseconds in [0, 1e9) and denotes the same instant as its arguments |
| Fcoin.SplitMillis | fcoin/fcoin.go:148 | seconds × 1000 plus nanoseconds / 1e6 gives back the milliseconds; for non-negative input the nanoseconds lie in [0, 999000000] |
| Fcoin.ServerTime | fcoin/fcoin.go:148 | the time denotes exactly the given number of milliseconds after the epoch, negative ones included |
| Fcoin.GetServerTime | fcoin/fcoin.go:136-149 | succeeds exactly when the public call and the decode succeed, and then gives the normalised time (nanoseconds in [0, 1e9)) that denotes the decoded milliseconds; a call error is passed on; data that does not decode fails with the decoder's error |
| Fcoin.IsOrderFinished | fcoin/fcoin.go:509-519 | a fetch error is passed on; otherwise the order is finished exactly when its state is `filled`, `canceled` or `partial_canceled` |
| Fcoin.FinishedStates | fcoin/fcoin.go:515 | of the six documented order states, exactly the three end states count as finished |
| Fcoin.CoinType | fcoin/fcoin.go:521-533 | the four known symbols split into a non-empty base and quote that concatenate back to the symbol; every other symbol gives ("", "") |
| Text.ItoaRoundTrip | fcoin/fcoin.go:247 | the decimal rendering of any integer reads back to that integer |
| Text.ToUpper | fcoin/fcoin.go:37 | upper-casing keeps the length, turns each lower-case ASCII letter into its upper-case letter and changes no other character |
| GoInt.Wrap64 | fcoin/fcoin.go:39 | 64-bit wrap-around is the identity on representable values and always congruent modulo 2^64 |
| GoInt.QuotRem | fcoin/fcoin.go:148 | truncating division splits the dividend exactly, with a remainder of the dividend's sign and smaller than the divisor |

## Left out

- HTTP: building the request, the round trip, reading the body and unmarshalling the envelope are the `exchange`/`send` parameters. Their failures come back as `TransportError`.
- JSON text: command-list encoding and payload decoding are parameters. The encoder may fail, as `json.Marshal` does on NaN or infinite floats. Encoding the outbound envelope cannot fail, because it holds only strings.
- Digests and encodings: HMAC-MD5 hex, HMAC-SHA1, base64 and UTF-8 are parameters. The digests themselves are not modelled.
- The clock: the signing timestamp's seconds are a parameter.
- Floating point: `GetCurrentMarketPrice`, `GetAvailableAmount` and `HasEnoughAssets` parse and compare floats. They are not modelled. The float fields of a trade are opaque bit patterns.
- Thin FCoin endpoint wrappers (`GetCurrencies`, `GetSymbols`, `GetMarketTicker`, `GetMarketDepth`, `GetAccountBalance`, `CreateOrder`, `GetOrders`, `GetOrderByID`, `CancelOrder`, `OrderMatchResult`) are not modelled. They pass fixed paths and values to `authorization`/`public` and decode the data; `CancelOrder` also prints the raw reply to standard output (fcoin/fcoin.go:425), which is not modelled.
- `MarketTradesRequest` and `MarketCandleRequest` carry no contract of their own. Their logic is the paging query, which `PagingQueryCanonical` covers.
- FcoinUtil.ParseUri: `url.Parse` is reduced to a cut at the first '?' together with Go's `ForceQuery` flag. Fragments and escaping are not modelled. `URL.String` re-escapes the path, so `ParseUriRoundTrip` matches Go only for URLs already in canonical escaped form, such as the service's `https://api.fcoin.com/...` paths.
- ParseUri always succeeds. When `url.Parse` fails, the source discards the error and its nil `*URL` makes `sortedURI` panic at fcoin/util.go:29; the model cannot express that panic.
- Nil inputs: a nil `*TradeBody` makes `Trade` and `BatchTrade` panic (bibox/bibox.go:220, 287), and so does a nil `*PendingBody` in `CurrentPending` and `HistoryPending` (bibox/bibox.go:478, 552). The model takes these records by value, so these panics are not modelled.
- Text.ToUpper: only ASCII letters are upper-cased; Unicode case mapping is not modelled.
- Bibox.GetBatchDepth: the read and envelope-unmarshal errors of this call append ":" and the body to their text; the model keeps only the collaborator's error.
- Bibox.Exchange: request construction, read and envelope-unmarshal failures are folded into one `TransportError`.
- Go's string order is byte-wise over UTF-8. The model orders by character, which agrees with it on code points.
- The batch index `index + 1` is a Go `int`; overflow would need more than 2^63 commands and is not modelled.
- The gateio package is not part of this model, and neither are the live-network tests.
- `NewBiboxService` and `NewFcoinService` only store the URL and the keys; their fields are the `Service` records.
- The `Hmac` helper in fcoin/util.go (HMAC-MD5 hex) is never called by the FCoin client and is not modelled.
