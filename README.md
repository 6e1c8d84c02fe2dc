# Finnhub-to-Kinesis producer, modelled in Dafny

This project models the decision logic of `producer.py`. That script is a
websocket client. It subscribes to Finnhub trade updates for a fixed list of
stock symbols and forwards every trade it receives to the Kinesis stream
`datalake-stream`. The model covers its two callbacks:

- `on_message` (`Producer.OnMessage`). It classifies one decoded frame as a
  trade batch, a ping or something else. For a trade batch it loops over the
  elements of `data`. It stamps each element with `ingestion_timestamp`,
  picks the partition key (`s`, or `"unknown_symbol"`) and issues one
  `put_record`. The first exception ends the loop. The handler catches every
  exception, so a bad frame never escapes.
- `on_open` (`Producer.OnOpen`). It sends one `{"type": "subscribe",
  "symbol": s}` frame per configured symbol, in list order.

Files:

- `wrappers.dfy`: the `Option` datatype.
- `json.dfy`: decoded JSON values. Dictionaries are ordered field lists, as
  Python dictionaries keep insertion order. `Lookup` is `d.get(k)`, `HasKey`
  is `k in d`, and `Assign` is `d[k] = v`. `d[k] = v` overwrites an existing
  field in place and appends a new one at the end.
- `producer.dfy`: the constants (`StreamName`, `StockSymbols`), the
  classification, the per-element transform, the functional specification of
  one callback (`Dispatch`, built on `RunBatch` for the loop), the lemmas
  about it, and the imperative callbacks over two recording stand-ins.
  `KinesisClient` logs every `put_record` call and answers from a script of
  outcomes. `FeedSocket` logs every frame sent.

The outside world becomes parameters:

- Decoding is done before the call. `None` stands for text on which
  `json.loads` raises `JSONDecodeError`.
- `clock(n)` is the millisecond reading taken when element `n` of the batch
  is stamped. The source reads the clock anew for every element.
- The Kinesis client's outcomes are a script of booleans, one per call, in
  order. A call after the script has run out fails, like a scripted test
  double that raises once it is exhausted.

Python semantics the model keeps:

- A decoded value that is not a dictionary has no `get`. The classification
  raises and is contained, so no put is made.
- `for trade in data['data']` iterates a string by characters and a
  dictionary by keys. Those elements are strings and cannot be stamped, so
  the loop raises at its first element. Any other non-list value is not
  iterable and raises before the loop starts.
- An element that is not a dictionary raises at the stamping assignment.
  That ends the batch, with no put for that element.
- The partition key is whatever value `s` holds whenever the key is present.
  That includes an empty string and values that are not strings. Whether
  Kinesis accepts such a key is the script's answer.

What the code does, and the model with it:

- The code picks the fallback key by whether `s` is present, so a present
  but empty symbol is kept.
- A malformed element or a failed put abandons the rest of its batch; the
  element is not skipped.
- There is no retry, backoff or reconnect logic.

## Model

| member | source | states |
|---|---|---|
| Json.AssignLookup | producer.py:40 | after `d[k] = v` (`Json.Assign`) the key `k` reads `v` and every other key reads as before |
| Json.AssignKeys | producer.py:40 | the assignment keeps the key order: an existing key is overwritten where it stands and a new key goes last |
| Json.AssignDistinct | producer.py:40 | the assignment never duplicates a key |
| Json.LookupFirst | producer.py:37-45 | `d.get(k)` (`Json.Lookup`) is the value of the first field with key `k`, and `None` exactly when no field has key `k` |
| Json.LookupOr | producer.py:45 | `d.get(k, default)` is the stored value when `k` is present and `default` otherwise |
| Json.HasKeyIffInKeys | producer.py:37 | for every key `k`, `k in d` (`Json.HasKey`) holds exactly when `k` is one of the dictionary's keys |
| Producer.Classify | producer.py:37-60 | trade branch iff the value is a dict whose `type` is `"trade"` and that has a `data` key, and then the batch is the `data` value; ping branch iff `type` is `"ping"`; a non-dict cannot be classified |
| Producer.Iterate | producer.py:38 | a list yields its elements; a string yields its characters and a dict its keys, each as a string, one per character or key; any other value is not iterable |
| Producer.Transform | producer.py:51-55 | the put for an element names `datalake-stream` and carries a dictionary |
| Producer.TransformSpec | producer.py:40-48 | the record is the element with `ingestion_timestamp` set to the clock reading, overwritten or appended, and all other fields unchanged; the partition key is the element's `s` value when the key is present (even `""`), else `"unknown_symbol"` |
| Producer.RunBatch | producer.py:38-56 | the batch loop never attempts more puts than the batch has elements |
| Producer.RunsFromAdvance | producer.py:38-56 | an accepted put of a dict element adds that element's put to the attempts so far and moves the loop to the next element |
| Producer.RunsFromRefused | producer.py:51-66 | a put that raises is the loop's last attempt and cuts it short |
| Producer.RunsFromNonDict | producer.py:38-40 | an element that is not a dict cuts the loop short before its put |
| Producer.RunBatchPrefix | producer.py:38-56 | the attempts are the transformed elements in list order, each stamped with the reading for its own position |
| Producer.RunBatchCompletes | producer.py:38-56 | when no element fails, every element is put and the loop ends normally |
| Producer.RunBatchStops | producer.py:38-66 | at the first failing element `k` the loop is cut short; `k` is attempted exactly when it is a dict, and no later element is attempted |
| Producer.Dispatch | producer.py:25-66 | the decode-error branch is taken exactly when the text does not decode, the ping branch exactly for a ping frame, the "other" branch exactly for a dict that is neither; puts and a completed batch happen only in the trade branch |
| Producer.TradeFrameRunsBatch | producer.py:37-66 | on a trade frame the handler's puts are the batch loop's attempts over `data`, and it ends in the error branch exactly when the loop was cut short |
| Producer.TradeFramePutsEveryElement | producer.py:37-56 | a trade frame with N dict elements whose puts all succeed makes exactly N puts, in list order, and completes |
| Producer.TradeFramePutsArePrefix | producer.py:37-56 | whatever the outcomes, a trade frame's puts are the transformed elements of a prefix of its list |
| Producer.TradeFrameAbortsAtFirstFailure | producer.py:30-66 | if element `k` is the first to fail, by a raising put or by not being a dict, the handler ends in its error branch after `k` or `k + 1` attempts, attempt `j` is the transformed element `j`, and elements after `k` are never attempted |
| Producer.PingFramePutsNothing | producer.py:57-58 | a ping frame makes no put |
| Producer.TradeFrameWithoutDataIgnored | producer.py:59-60 | a trade frame without a `data` key falls to the "other" branch and makes no put |
| Producer.UndecodableFramePutsNothing | producer.py:62-63 | undecodable text makes no put, and the handler returns in its decode-error branch |
| Producer.NonDictFramePutsNothing | producer.py:64-66 | a decoded value that is not a dict makes no put, and the handler returns in its error branch |
| Producer.NonListDataPutsNothing | producer.py:38-40 | a trade frame whose `data` is not a list makes no put; the loop ends normally only for an empty string or an empty dict |
| Producer.OnlyTradeListFramesPut | producer.py:37-38 | a frame that makes any put is a dict with `type` `"trade"` and a list under `data` |
| Producer.EveryPutTargetsTheStream | producer.py:51-55 | every put of every frame names `datalake-stream` |
| Producer.SingleTradeScenario | producer.py:37-56 | one AAPL trade gives one put keyed `"AAPL"`, with the timestamp appended after the trade's own fields |
| Producer.MissingSymbolScenario | producer.py:45 | a trade without `s` still gives one put, keyed `"unknown_symbol"` |
| Producer.SubscribeFrame | producer.py:83 | the control frame has exactly the keys `type` then `symbol`, with `type` `"subscribe"` and the given symbol |
| Producer.SubscriptionFrames | producer.py:82-84 | one frame per symbol: frame `i` is the subscribe frame for symbol `i` |
| Producer.KinesisClient.PutRecord | producer.py:51-55 | each call is logged with its stream, record and key, and consumes one scripted outcome |
| Producer.FeedSocket.Send | producer.py:84 | each frame sent is appended to the socket's log |
| Producer.PublishBatch | producer.py:38-56 | the loop appends exactly the attempts `RunBatch` describes to the client's log, consumes one outcome per attempt, and reports whether it was cut short |
| Producer.OnMessage | producer.py:25-66 | the callback appends exactly `Dispatch`'s puts to the log, consumes one outcome per put, and ends in `Dispatch`'s branch |
| Producer.OnOpen | producer.py:76-85 | the socket's log grows by exactly the subscribe frames of `AAPL, AMZN, MSFT, GOOGL, TSLA, NVDA, META`, in that order, and nothing else |

## Left out

- The websocket connection, `run_forever()` and its reconnection (producer.py:99-108) are library behaviour. The source adds no reconnect or backoff logic of its own.
- Producer.OnOpen: `ws.send` (producer.py:84) has no `try` around it. If it raises, for instance on a connection that closed meanwhile, the loop stops and the later symbols are not subscribed. `FeedSocket.Send` cannot fail, so the promise of exactly seven frames holds only for a connection that stays open during the callback. Which connection failures the websocket library raises is library behaviour.
- Producer.UndecodableFramePutsNothing: `None` stands only for text on which `json.loads` raises `JSONDecodeError`. `json.loads` can also raise other exceptions, such as `ValueError` for an integer literal longer than the interpreter's digit limit, or `RecursionError` on very deep nesting. Those reach the generic handler (producer.py:64-66) and end with no put in the error branch. The model has no input for such text, because the JSON text grammar is not modelled.
- `on_error` and `on_close` (producer.py:68-74) only print.
- Printing is not modelled. `Disposition` records which branch a frame took, which is what the printed lines report.
- The Kinesis network call is replaced by the scripted outcome, and its `SequenceNumber` response is only printed. There is no retry, throttling or error classification in the source to model.
- Environment and configuration loading and the `__main__` bootstrap (producer.py:5-21, 89-104) are left out. The stream name and the symbol list are constants.
- The JSON text grammar of `json.loads` is left out: decoding is an input. `json.dumps` is left out too: the put log holds the dictionary that would be serialised, and equal records serialise to equal text. Subscription frames are likewise logged as dictionaries.
- `int(time.time() * 1000)` is float arithmetic. The model takes the already-truncated integer reading as input. JSON floats are carried as reals and never computed on. NaN and infinities are not represented.
- The stamping assignment mutates the decoded dictionary in place. Nothing reads that dictionary after the handler returns, so the model treats the stamp as a new value.
