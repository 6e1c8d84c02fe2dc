/** The Finnhub-to-Kinesis producer.

    The websocket callback `OnMessage` classifies one decoded frame; for a
    trade frame it stamps every element of the frame's `data` list with the
    clock, picks a partition key and issues one `put_record` per element, in
    order, stopping at the first element that raises. Every exception is
    caught by the handler, so a frame never ends the session. `OnOpen` sends
    one subscription frame per configured symbol.

    Outside world, as parameters:
    - decoding (`json.loads`) is done before the call: `None` stands for the
      text that raised `JSONDecodeError`;
    - `clock(n)` is the millisecond reading taken when element `n` of the
      batch is stamped;
    - the Kinesis client records each call and answers from a script of
      outcomes (`true` = accepted, `false` = the call raised). */
module Producer {
  import opened Wrappers
  import opened Json

  const StreamName: string := "datalake-stream"
  const StockSymbols: seq<string> := ["AAPL", "AMZN", "MSFT", "GOOGL", "TSLA", "NVDA", "META"]
  const UnknownSymbol: string := "unknown_symbol"
  const TimestampKey: string := "ingestion_timestamp"

  /** One `put_record` call: stream name, record (the dictionary that is
      serialised) and partition key. */
  datatype PutRequest = PutRequest(streamName: string, data: Value, partitionKey: Value)

  /** The branch a frame took through the handler, i.e. what it logs. */
  datatype Disposition =
    | BatchCompleted    // trade branch, the loop ran over every element
    | PingReceived
    | Ignored           // another type, or a trade frame without "data"
    | DecodeFailed      // json.loads raised JSONDecodeError
    | ProcessingFailed  // any other exception, caught by the handler

  datatype FrameKind = TradeBatch(data: Value) | Ping | OtherKind | NotADict

  /** The handler's test on a decoded frame. A value that is not a
      dictionary has no `get`, so the test itself raises. */
  function Classify(v: Value): (k: FrameKind)
    ensures k.NotADict? <==> !v.Obj?
    ensures k.TradeBatch? <==>
      v.Obj? && Lookup(v.fields, "type") == Some(Str("trade")) && HasKey(v.fields, "data")
    ensures k.TradeBatch? ==> Lookup(v.fields, "data") == Some(k.data)
    ensures k.Ping? <==> v.Obj? && Lookup(v.fields, "type") == Some(Str("ping"))
  {
    if !v.Obj? then NotADict
    else
      var kind := Lookup(v.fields, "type");
      var data := Lookup(v.fields, "data");
      if kind == Some(Str("trade")) && data.Some? then TradeBatch(data.value)
      else if kind == Some(Str("ping")) then Ping
      else OtherKind
  }

  /** What `for x in v` yields: a list's elements, a string's characters
      (each a one-character string), a dictionary's keys; `None` when `v` is
      not iterable and the loop raises before its first element. */
  function Iterate(v: Value): (r: Option<seq<Value>>)
    ensures r.None? <==> !(v.Arr? || v.Str? || v.Obj?)
    ensures v.Arr? ==> r == Some(v.items)
    ensures v.Str? ==> r.Some? && |r.value| == |v.s|
    ensures v.Obj? ==> r.Some? && |r.value| == |v.fields|
    ensures v.Str? ==> forall i :: 0 <= i < |v.s| ==> r.value[i] == Str([v.s[i]])
    ensures v.Obj? ==> forall i :: 0 <= i < |v.fields| ==> r.value[i] == Str(Keys(v.fields)[i])
  {
    match v
    case Arr(items) => Some(items)
    case Str(s) => Some(seq(|s|, i requires 0 <= i < |s| => Str([s[i]])))
    case Obj(fs) => Some(seq(|fs|, i requires 0 <= i < |fs| => Str(fs[i].0)))
    case _ => None
  }

  /** One element of a trade batch, made ready for Kinesis: the dictionary
      with `ingestion_timestamp` set to the clock reading, and its partition
      key. */
  function Transform(trade: Value, nowMs: int): (p: PutRequest)
    requires trade.Obj?
    ensures p.streamName == StreamName
    ensures p.data.Obj?
  {
    var stamped := Assign(trade.fields, TimestampKey, Int(nowMs));
    PutRequest(StreamName, Obj(stamped), LookupOr(stamped, "s", Str(UnknownSymbol)))
  }

  /** The record sent for an element is the element with
      `ingestion_timestamp` set to the clock reading (overwritten where it
      was present, appended otherwise) and every other field as it was; the
      partition key is the element's `s` value when that key is present,
      whatever the value is (an empty string included), else
      "unknown_symbol". */
  lemma TransformSpec(trade: Value, nowMs: int)
    requires trade.Obj?
    ensures var p := Transform(trade, nowMs);
      && Lookup(p.data.fields, TimestampKey) == Some(Int(nowMs))
      && (forall k :: k != TimestampKey ==> Lookup(p.data.fields, k) == Lookup(trade.fields, k))
      && Keys(p.data.fields) ==
           (if HasKey(trade.fields, TimestampKey) then Keys(trade.fields) else Keys(trade.fields) + [TimestampKey])
      && (HasKey(trade.fields, "s") ==> Some(p.partitionKey) == Lookup(trade.fields, "s"))
      && (!HasKey(trade.fields, "s") ==> p.partitionKey == Str(UnknownSymbol))
  {
    var stamped := Assign(trade.fields, TimestampKey, Int(nowMs));
    forall k {
      AssignLookup(trade.fields, TimestampKey, Int(nowMs), k);
    }
    AssignKeys(trade.fields, TimestampKey, Int(nowMs));
  }

  /** Whether the `n`-th put of a batch is accepted: the script answers the
      calls in order and a call past its end raises. */
  predicate Accepts(script: seq<bool>, n: nat)
  {
    n < |script| && script[n]
  }

  /** The script left after `n` calls. */
  function Drop(script: seq<bool>, n: nat): seq<bool>
  {
    if n <= |script| then script[n..] else []
  }

  /** The first outcome left after `n` calls answers call `n`, and using it
      up leaves the script after `n + 1` calls. */
  lemma DropStep(script: seq<bool>, n: nat)
    ensures Accepts(Drop(script, n), 0) == Accepts(script, n)
    ensures Drop(Drop(script, n), 1) == Drop(script, n + 1)
  {
  }

  /** Element `n` ends the loop: it is not a dictionary, so stamping it
      raises, or it is one and its put is refused. */
  predicate Breaks(items: seq<Value>, script: seq<bool>, n: nat)
    requires n < |items|
  {
    !items[n].Obj? || !Accepts(script, n)
  }

  datatype BatchRun = BatchRun(puts: seq<PutRequest>, aborted: bool)

  /** The put attempts of the batch loop from element `n` on, and whether it
      was cut short by an exception. */
  function RunBatch(items: seq<Value>, clock: nat -> int, script: seq<bool>, n: nat): (r: BatchRun)
    requires n <= |items|
    ensures n + |r.puts| <= |items|
    decreases |items| - n
  {
    if n == |items| then BatchRun([], false)
    else if !items[n].Obj? then BatchRun([], true)
    else
      var p := Transform(items[n], clock(n));
      if !Accepts(script, n) then BatchRun([p], true)
      else
        var rest := RunBatch(items, clock, script, n + 1);
        BatchRun([p] + rest.puts, rest.aborted)
  }

  /** One step of the loop on a dictionary element: it is put, and the
      loop goes on exactly when the put was accepted. */
  lemma RunBatchStep(items: seq<Value>, clock: nat -> int, script: seq<bool>, n: nat)
    requires n < |items| && items[n].Obj?
    ensures RunBatch(items, clock, script, n).puts ==
      [Transform(items[n], clock(n))] + if Accepts(script, n) then RunBatch(items, clock, script, n + 1).puts else []
    ensures RunBatch(items, clock, script, n).aborted ==
      (!Accepts(script, n) || RunBatch(items, clock, script, n + 1).aborted)
  {
  }

  /** The attempts of the loop from element `n` on are the transformed
      elements `n`, `n + 1`, ... in order, each a dictionary stamped with the
      reading taken for its own position. */
  lemma {:induction false} RunBatchPrefix(items: seq<Value>, clock: nat -> int, script: seq<bool>, n: nat)
    requires n <= |items|
    ensures var r := RunBatch(items, clock, script, n);
      forall j :: n <= j < n + |r.puts| ==> items[j].Obj? && r.puts[j - n] == Transform(items[j], clock(j))
    decreases |items| - n
  {
    var r := RunBatch(items, clock, script, n);
    if n < |items| && items[n].Obj? && Accepts(script, n) {
      var rest := RunBatch(items, clock, script, n + 1);
      RunBatchPrefix(items, clock, script, n + 1);
      assert r.puts == [Transform(items[n], clock(n))] + rest.puts;
      forall j | n < j < n + |r.puts|
        ensures items[j].Obj? && r.puts[j - n] == Transform(items[j], clock(j))
      {
        assert r.puts[j - n] == rest.puts[j - (n + 1)];
      }
    }
  }

  /** The loop after its first `n` attempts `done`: the whole run is `done`
      followed by the run from element `n`. */
  predicate RunsFrom(items: seq<Value>, clock: nat -> int, script: seq<bool>, done: seq<PutRequest>, n: nat)
    requires n <= |items|
  {
    var rest := RunBatch(items, clock, script, n);
    RunBatch(items, clock, script, 0) == BatchRun(done + rest.puts, rest.aborted)
  }

  /** An accepted put of a dictionary element moves the loop one element on. */
  lemma RunsFromAdvance(items: seq<Value>, clock: nat -> int, script: seq<bool>, done: seq<PutRequest>, n: nat)
    requires n < |items| && items[n].Obj? && Accepts(script, n)
    requires RunsFrom(items, clock, script, done, n)
    ensures RunsFrom(items, clock, script, done + [Transform(items[n], clock(n))], n + 1)
  {
    var p := Transform(items[n], clock(n));
    var rest := RunBatch(items, clock, script, n + 1);
    RunBatchStep(items, clock, script, n);
    assert done + ([p] + rest.puts) == (done + [p]) + rest.puts;
  }

  /** A put that raises ends the loop with that put as its last attempt. */
  lemma RunsFromRefused(items: seq<Value>, clock: nat -> int, script: seq<bool>, done: seq<PutRequest>, n: nat)
    requires n < |items| && items[n].Obj? && !Accepts(script, n)
    requires RunsFrom(items, clock, script, done, n)
    ensures RunBatch(items, clock, script, 0) == BatchRun(done + [Transform(items[n], clock(n))], true)
  {
    RunBatchStep(items, clock, script, n);
  }

  /** An element that is not a dictionary ends the loop before any put. */
  lemma RunsFromNonDict(items: seq<Value>, clock: nat -> int, script: seq<bool>, done: seq<PutRequest>, n: nat)
    requires n < |items| && !items[n].Obj?
    requires RunsFrom(items, clock, script, done, n)
    ensures RunBatch(items, clock, script, 0) == BatchRun(done, true)
  {
    assert RunBatch(items, clock, script, n) == BatchRun([], true);
    assert done + [] == done;
  }

  /** When no element from `n` on breaks the loop, every one of them is put. */
  lemma {:induction false} RunBatchCompletes(items: seq<Value>, clock: nat -> int, script: seq<bool>, n: nat)
    requires n <= |items|
    requires forall j :: n <= j < |items| ==> !Breaks(items, script, j)
    ensures !RunBatch(items, clock, script, n).aborted
    ensures |RunBatch(items, clock, script, n).puts| == |items| - n
    decreases |items| - n
  {
    if n < |items| {
      assert !Breaks(items, script, n);
      RunBatchCompletes(items, clock, script, n + 1);
    }
  }

  /** The loop stops at the first breaking element `k`: `k` itself is
      attempted when it is a dictionary, nothing after it is. */
  lemma {:induction false} RunBatchStops(items: seq<Value>, clock: nat -> int, script: seq<bool>, n: nat, k: nat)
    requires n <= k < |items|
    requires forall j :: n <= j < k ==> !Breaks(items, script, j)
    requires Breaks(items, script, k)
    ensures RunBatch(items, clock, script, n).aborted
    ensures |RunBatch(items, clock, script, n).puts| == if items[k].Obj? then k - n + 1 else k - n
    decreases k - n
  {
    if n < k {
      assert !Breaks(items, script, n);
      RunBatchStops(items, clock, script, n + 1, k);
    }
  }

  /** What the handler does with one frame. */
  datatype Handled = Handled(puts: seq<PutRequest>, disposition: Disposition)

  /** The whole `on_message` callback on one (possibly undecodable) frame:
      the put attempts it makes, in order, and the branch it ends in. */
  function Dispatch(decoded: Option<Value>, clock: nat -> int, script: seq<bool>): (h: Handled)
    ensures h.disposition == DecodeFailed <==> decoded.None?
    ensures h.disposition == PingReceived <==> decoded.Some? && Classify(decoded.value).Ping?
    ensures h.disposition == Ignored <==> decoded.Some? && Classify(decoded.value).OtherKind?
    ensures h.puts != [] ==> decoded.Some? && Classify(decoded.value).TradeBatch?
    ensures h.disposition == BatchCompleted ==> decoded.Some? && Classify(decoded.value).TradeBatch?
  {
    match decoded
    case None => Handled([], DecodeFailed)
    case Some(v) =>
      match Classify(v)
      case NotADict => Handled([], ProcessingFailed)
      case Ping => Handled([], PingReceived)
      case OtherKind => Handled([], Ignored)
      case TradeBatch(data) =>
        match Iterate(data)
        case None => Handled([], ProcessingFailed)
        case Some(items) =>
          var r := RunBatch(items, clock, script, 0);
          Handled(r.puts, if r.aborted then ProcessingFailed else BatchCompleted)
  }

  /** A trade frame: a dictionary whose "type" is "trade" and whose "data"
      is the list `items`. */
  predicate IsTradeFrame(v: Value, items: seq<Value>)
  {
    v.Obj? && Lookup(v.fields, "type") == Some(Str("trade")) && Lookup(v.fields, "data") == Some(Arr(items))
  }

  /** On a trade frame the handler runs the batch loop over the list and
      ends in the error branch exactly when the loop was cut short. */
  lemma TradeFrameRunsBatch(v: Value, items: seq<Value>, clock: nat -> int, script: seq<bool>)
    requires IsTradeFrame(v, items)
    ensures Dispatch(Some(v), clock, script).puts == RunBatch(items, clock, script, 0).puts
    ensures Dispatch(Some(v), clock, script).disposition ==
      if RunBatch(items, clock, script, 0).aborted then ProcessingFailed else BatchCompleted
  {
    assert Classify(v) == TradeBatch(Arr(items));
    assert Iterate(Arr(items)) == Some(items);
  }

  /** A trade frame whose elements are all dictionaries and whose puts all
      succeed yields exactly one put per element, in list order. */
  lemma TradeFramePutsEveryElement(v: Value, items: seq<Value>, clock: nat -> int, script: seq<bool>)
    requires IsTradeFrame(v, items)
    requires forall j :: 0 <= j < |items| ==> items[j].Obj? && Accepts(script, j)
    ensures Dispatch(Some(v), clock, script).disposition == BatchCompleted
    ensures |Dispatch(Some(v), clock, script).puts| == |items|
    ensures forall j :: 0 <= j < |items| ==>
      Dispatch(Some(v), clock, script).puts[j] == Transform(items[j], clock(j))
  {
    TradeFrameRunsBatch(v, items, clock, script);
    RunBatchCompletes(items, clock, script, 0);
    RunBatchPrefix(items, clock, script, 0);
    var r := RunBatch(items, clock, script, 0);
    forall j | 0 <= j < |items|
      ensures r.puts[j] == Transform(items[j], clock(j))
    {
      assert r.puts[j - 0] == r.puts[j];
    }
  }

  /** Whatever the outcomes, the puts of a trade frame are the transformed
      elements of a prefix of its list, in order. */
  lemma TradeFramePutsArePrefix(v: Value, items: seq<Value>, clock: nat -> int, script: seq<bool>)
    requires IsTradeFrame(v, items)
    ensures |Dispatch(Some(v), clock, script).puts| <= |items|
    ensures forall j :: 0 <= j < |Dispatch(Some(v), clock, script).puts| ==>
      items[j].Obj? && Dispatch(Some(v), clock, script).puts[j] == Transform(items[j], clock(j))
  {
    var puts := RunBatch(items, clock, script, 0).puts;
    TradeFrameRunsBatch(v, items, clock, script);
    RunBatchPrefix(items, clock, script, 0);
    forall j | 0 <= j < |puts|
      ensures items[j].Obj? && puts[j] == Transform(items[j], clock(j))
    {
      assert puts[j - 0] == puts[j];
    }
  }

  /** When element `k` is the first to fail (not a dictionary, or its put
      raised), the handler ends normally in its error branch; elements
      before `k` have been put, `k` was attempted exactly when it is a
      dictionary, and no later element is attempted. */
  lemma TradeFrameAbortsAtFirstFailure(v: Value, items: seq<Value>, clock: nat -> int, script: seq<bool>, k: nat)
    requires IsTradeFrame(v, items)
    requires k < |items|
    requires forall j :: 0 <= j < k ==> items[j].Obj? && Accepts(script, j)
    requires !items[k].Obj? || !Accepts(script, k)
    ensures Dispatch(Some(v), clock, script).disposition == ProcessingFailed
    ensures |Dispatch(Some(v), clock, script).puts| == if items[k].Obj? then k + 1 else k
    ensures forall j :: 0 <= j < |Dispatch(Some(v), clock, script).puts| ==>
      Dispatch(Some(v), clock, script).puts[j] == Transform(items[j], clock(j))
  {
    TradeFrameRunsBatch(v, items, clock, script);
    RunBatchStops(items, clock, script, 0, k);
    TradeFramePutsArePrefix(v, items, clock, script);
  }

  /** A ping frame makes no put. */
  lemma PingFramePutsNothing(v: Value, clock: nat -> int, script: seq<bool>)
    requires v.Obj? && Lookup(v.fields, "type") == Some(Str("ping"))
    ensures Dispatch(Some(v), clock, script) == Handled([], PingReceived)
  {
  }

  /** A trade frame without a "data" key falls to the "other" branch. */
  lemma TradeFrameWithoutDataIgnored(v: Value, clock: nat -> int, script: seq<bool>)
    requires v.Obj? && Lookup(v.fields, "type") == Some(Str("trade")) && !HasKey(v.fields, "data")
    ensures Dispatch(Some(v), clock, script) == Handled([], Ignored)
  {
  }

  /** Text that does not decode makes no put and is contained. */
  lemma UndecodableFramePutsNothing(clock: nat -> int, script: seq<bool>)
    ensures Dispatch(None, clock, script) == Handled([], DecodeFailed)
  {
  }

  /** A decoded value that is not a dictionary makes no put: the handler's
      `get` raises and the exception is contained. */
  lemma NonDictFramePutsNothing(v: Value, clock: nat -> int, script: seq<bool>)
    requires !v.Obj?
    ensures Dispatch(Some(v), clock, script) == Handled([], ProcessingFailed)
  {
  }

  /** A trade frame whose "data" is not a list makes no put: a string or a
      dictionary yields strings, which cannot be stamped, and anything else
      cannot be iterated. Only an empty string or dictionary lets the loop
      end normally. */
  lemma NonListDataPutsNothing(v: Value, data: Value, clock: nat -> int, script: seq<bool>)
    requires v.Obj? && Lookup(v.fields, "type") == Some(Str("trade"))
    requires Lookup(v.fields, "data") == Some(data) && !data.Arr?
    ensures Dispatch(Some(v), clock, script).puts == []
    ensures Dispatch(Some(v), clock, script).disposition ==
      if data == Str([]) || data == Obj([]) then BatchCompleted else ProcessingFailed
  {
  }

  /** Puts happen only for a trade frame whose "data" is a list. */
  lemma OnlyTradeListFramesPut(decoded: Option<Value>, clock: nat -> int, script: seq<bool>)
    requires Dispatch(decoded, clock, script).puts != []
    ensures decoded.Some? && decoded.value.Obj?
    ensures Lookup(decoded.value.fields, "type") == Some(Str("trade"))
    ensures Lookup(decoded.value.fields, "data").Some? && Lookup(decoded.value.fields, "data").value.Arr?
  {
  }

  /** Every put of every frame names the one configured stream. */
  lemma EveryPutTargetsTheStream(decoded: Option<Value>, clock: nat -> int, script: seq<bool>)
    ensures forall p | p in Dispatch(decoded, clock, script).puts :: p.streamName == StreamName
  {
    var puts := Dispatch(decoded, clock, script).puts;
    if puts != [] {
      OnlyTradeListFramesPut(decoded, clock, script);
      var items := Lookup(decoded.value.fields, "data").value.items;
      TradeFramePutsArePrefix(decoded.value, items, clock, script);
      forall p | p in puts
        ensures p.streamName == StreamName
      {
        var j :| 0 <= j < |puts| && puts[j] == p;
        assert items[j].Obj?;
      }
    }
  }

  /** A single trade with symbol AAPL: one put, keyed "AAPL", with the
      timestamp appended after the trade's own fields. */
  lemma SingleTradeScenario(clock: nat -> int)
    ensures
      var trade := Obj([("s", Str("AAPL")), ("p", Float(150.0)), ("v", Int(10)), ("t", Int(1690000000000))]);
      var frame := Obj([("type", Str("trade")), ("data", Arr([trade]))]);
      Dispatch(Some(frame), clock, [true]) == Handled(
        [PutRequest(StreamName,
                    Obj([("s", Str("AAPL")), ("p", Float(150.0)), ("v", Int(10)), ("t", Int(1690000000000)),
                         (TimestampKey, Int(clock(0)))]),
                    Str("AAPL"))],
        BatchCompleted)
  {
    var trade := Obj([("s", Str("AAPL")), ("p", Float(150.0)), ("v", Int(10)), ("t", Int(1690000000000))]);
    var frame := Obj([("type", Str("trade")), ("data", Arr([trade]))]);
    var stamped := [("s", Str("AAPL")), ("p", Float(150.0)), ("v", Int(10)), ("t", Int(1690000000000)),
                    (TimestampKey, Int(clock(0)))];
    assert "type" != "data" by { assert "type"[0] != "data"[0]; }
    assert Lookup(frame.fields, "data") == Some(Arr([trade])) by {
      assert Lookup(frame.fields[1..], "data") == Some(Arr([trade]));
    }
    assert Classify(frame) == TradeBatch(Arr([trade]));
    assert Assign(trade.fields, TimestampKey, Int(clock(0))) == stamped by {
      assert Assign(trade.fields[3..], TimestampKey, Int(clock(0))) == stamped[3..];
      assert Assign(trade.fields[2..], TimestampKey, Int(clock(0))) == stamped[2..];
      assert Assign(trade.fields[1..], TimestampKey, Int(clock(0))) == stamped[1..];
    }
    var request := PutRequest(StreamName, Obj(stamped), Str("AAPL"));
    assert Transform(trade, clock(0)) == request;
    assert RunBatch([trade], clock, [true], 1) == BatchRun([], false);
    assert RunBatch([trade], clock, [true], 0) == BatchRun([request], false);
  }

  /** A trade without "s": still one put, keyed "unknown_symbol". */
  lemma MissingSymbolScenario(clock: nat -> int)
    ensures
      var frame := Obj([("type", Str("trade")), ("data", Arr([Obj([("p", Float(150.0))])]))]);
      Dispatch(Some(frame), clock, [true]) == Handled(
        [PutRequest(StreamName, Obj([("p", Float(150.0)), (TimestampKey, Int(clock(0)))]), Str(UnknownSymbol))],
        BatchCompleted)
  {
    var trade := Obj([("p", Float(150.0))]);
    var frame := Obj([("type", Str("trade")), ("data", Arr([trade]))]);
    var stamped := [("p", Float(150.0)), (TimestampKey, Int(clock(0)))];
    assert "type" != "data" by { assert "type"[0] != "data"[0]; }
    assert Lookup(frame.fields, "data") == Some(Arr([trade])) by {
      assert Lookup(frame.fields[1..], "data") == Some(Arr([trade]));
    }
    assert Classify(frame) == TradeBatch(Arr([trade]));
    assert Assign(trade.fields, TimestampKey, Int(clock(0))) == stamped by {
      assert Assign(trade.fields[1..], TimestampKey, Int(clock(0))) == stamped[1..];
    }
    assert Lookup(stamped, "s") == None by {
      assert Lookup(stamped[1..], "s") == None;
    }
    assert RunBatch([trade], clock, [true], 1) == BatchRun([], false);
  }

  /** The subscription control frame for one symbol. */
  function SubscribeFrame(symbol: string): (f: Value)
    ensures f.Obj? && Keys(f.fields) == ["type", "symbol"]
    ensures Lookup(f.fields, "type") == Some(Str("subscribe"))
    ensures Lookup(f.fields, "symbol") == Some(Str(symbol))
  {
    Obj([("type", Str("subscribe")), ("symbol", Str(symbol))])
  }

  /** The frames `on_open` sends for a symbol list: one per symbol, in list
      order. */
  function SubscriptionFrames(symbols: seq<string>): (fs: seq<Value>)
    ensures |fs| == |symbols|
    ensures forall i :: 0 <= i < |symbols| ==> fs[i] == SubscribeFrame(symbols[i])
  {
    if symbols == [] then [] else [SubscribeFrame(symbols[0])] + SubscriptionFrames(symbols[1..])
  }

  /** Subscribing to one more symbol sends one more frame, at the end. */
  lemma SubscriptionFramesSnoc(symbols: seq<string>, i: nat)
    requires i < |symbols|
    ensures SubscriptionFrames(symbols[..i + 1]) == SubscriptionFrames(symbols[..i]) + [SubscribeFrame(symbols[i])]
  {
    var longer := SubscriptionFrames(symbols[..i + 1]);
    var shorter := SubscriptionFrames(symbols[..i]);
    forall j | 0 <= j < i + 1
      ensures longer[j] == (shorter + [SubscribeFrame(symbols[i])])[j]
    {
      assert symbols[..i + 1][j] == symbols[j];
      if j < i {
        assert symbols[..i][j] == symbols[j];
      }
    }
  }

  /** The Kinesis client as the handler uses it: every `put_record` call is
      recorded in `log`, and `script` holds the outcomes of the calls still
      to come. */
  class KinesisClient {
    var log: seq<PutRequest>
    var script: seq<bool>

    constructor (script: seq<bool>)
      ensures log == [] && this.script == script
    {
      log := [];
      this.script := script;
    }

    /** One call: recorded whatever its outcome; `ok` is false when it raised. */
    method PutRecord(streamName: string, data: Value, partitionKey: Value) returns (ok: bool)
      modifies this
      ensures log == old(log) + [PutRequest(streamName, data, partitionKey)]
      ensures ok == Accepts(old(script), 0)
      ensures script == Drop(old(script), 1)
    {
      log := log + [PutRequest(streamName, data, partitionKey)];
      ok := script != [] && script[0];
      script := if script == [] then [] else script[1..];
    }
  }

  /** The websocket as the callbacks use it: every frame sent is recorded. */
  class FeedSocket {
    var sent: seq<Value>

    constructor ()
      ensures sent == []
    {
      sent := [];
    }

    method Send(frame: Value)
      modifies this
      ensures sent == old(sent) + [frame]
    {
      sent := sent + [frame];
    }
  }

  /** The batch loop of the trade branch: one stamp and one put per
      element, in order, until an element raises. Appends the attempts
      `RunBatch` describes and reports whether the loop was cut short. */
  method PublishBatch(kinesis: KinesisClient, items: seq<Value>, clock: nat -> int) returns (aborted: bool)
    modifies kinesis
    ensures kinesis.log == old(kinesis.log) + RunBatch(items, clock, old(kinesis.script), 0).puts
    ensures kinesis.script == Drop(old(kinesis.script), |RunBatch(items, clock, old(kinesis.script), 0).puts|)
    ensures aborted == RunBatch(items, clock, old(kinesis.script), 0).aborted
  {
    ghost var script0 := kinesis.script;
    ghost var log0 := kinesis.log;
    ghost var done: seq<PutRequest> := [];
    var n := 0;
    while n < |items|
      invariant n <= |items|
      invariant |done| == n
      invariant kinesis.log == log0 + done
      invariant kinesis.script == Drop(script0, n)
      invariant RunsFrom(items, clock, script0, done, n)
    {
      var trade := items[n];
      if !trade.Obj? {
        RunsFromNonDict(items, clock, script0, done, n);
        return true;
      }
      var request := Transform(trade, clock(n));
      var ok := kinesis.PutRecord(request.streamName, request.data, request.partitionKey);
      assert ok == Accepts(script0, n) && kinesis.script == Drop(script0, n + 1) by {
        DropStep(script0, n);
      }
      assert kinesis.log == log0 + (done + [request]);
      if !ok {
        RunsFromRefused(items, clock, script0, done, n);
        return true;
      }
      RunsFromAdvance(items, clock, script0, done, n);
      done := done + [request];
      n := n + 1;
    }
    assert RunBatch(items, clock, script0, n) == BatchRun([], false);
    assert done + [] == done;
    aborted := false;
  }

  /** The `on_message` callback: appends exactly the put attempts `Dispatch`
      describes to the client's log, uses up one scripted outcome per
      attempt, and reports the branch taken. No exception escapes. */
  method OnMessage(kinesis: KinesisClient, decoded: Option<Value>, clock: nat -> int) returns (d: Disposition)
    modifies kinesis
    ensures kinesis.log == old(kinesis.log) + Dispatch(decoded, clock, old(kinesis.script)).puts
    ensures kinesis.script == Drop(old(kinesis.script), |Dispatch(decoded, clock, old(kinesis.script)).puts|)
    ensures d == Dispatch(decoded, clock, old(kinesis.script)).disposition
  {
    if decoded.None? {
      return DecodeFailed;
    }
    var v := decoded.value;
    if !v.Obj? {
      return ProcessingFailed;
    }
    var kind := Lookup(v.fields, "type");
    var data := Lookup(v.fields, "data");
    if kind == Some(Str("trade")) && data.Some? {
      var iteration := Iterate(data.value);
      if iteration.None? {
        return ProcessingFailed;
      }
      var aborted := PublishBatch(kinesis, iteration.value, clock);
      d := if aborted then ProcessingFailed else BatchCompleted;
    } else if kind == Some(Str("ping")) {
      d := PingReceived;
    } else {
      d := Ignored;
    }
  }

  /** The `on_open` callback: sends one subscription frame per configured
      symbol, in list order, and nothing else. */
  method OnOpen(ws: FeedSocket)
    modifies ws
    ensures ws.sent == old(ws.sent) + SubscriptionFrames(StockSymbols)
    ensures |ws.sent| == |old(ws.sent)| + |StockSymbols|
  {
    for i := 0 to |StockSymbols|
      invariant ws.sent == old(ws.sent) + SubscriptionFrames(StockSymbols[..i])
    {
      SubscriptionFramesSnoc(StockSymbols, i);
      ws.Send(SubscribeFrame(StockSymbols[i]));
    }
    assert StockSymbols[..|StockSymbols|] == StockSymbols;
  }
}
