/**
 * The exchange client's normalisers (exchanges/aster.ts): one canonical record
 * per entity, filled from either the compact keys of a WebSocket push or the
 * verbose keys of a REST reply.
 */
module Normalize {
  import opened Common

  /** `a ?? b` read out of an object: the compact key, else the verbose key. */
  function Pick2(o: Obj, compact: string, verbose: string): (v: Json)
    ensures !IsNullish(Get(o, compact)) ==> v == Get(o, compact)
    ensures IsNullish(Get(o, compact)) ==> v == Get(o, verbose)
  {
    Coalesce(Get(o, compact), Get(o, verbose))
  }

  /** `o.compact ?? o.verbose ?? dflt` */
  function Pick3(o: Obj, compact: string, verbose: string, dflt: Json): (v: Json)
    ensures !IsNullish(Get(o, compact)) ==> v == Get(o, compact)
    ensures IsNullish(Get(o, compact)) && !IsNullish(Get(o, verbose)) ==> v == Get(o, verbose)
    ensures IsNullish(Get(o, compact)) && IsNullish(Get(o, verbose)) ==> v == dflt
  {
    Coalesce(Get(o, compact), Coalesce(Get(o, verbose), dflt))
  }

  /** The canonical order record (`AsterOrder`). `orderType` is the `type` field. */
  datatype Order = Order(
    avgPrice: Json, clientOrderId: Json, cumQuote: Json, executedQty: Json, orderId: Json,
    origQty: Json, origType: Json, price: Json, reduceOnly: Json, side: Json,
    positionSide: Json, status: Json, stopPrice: Json, closePosition: Json, symbol: Json,
    time: Json, timeInForce: Json, orderType: Json, activatePrice: Json, priceRate: Json,
    updateTime: Json, workingType: Json, priceProtect: Json,
    // push-only fields
    eventType: Json, eventTime: Json, matchTime: Json, lastFilledQty: Json,
    lastFilledPrice: Json, commissionAsset: Json, commission: Json, tradeId: Json,
    bidValue: Json, askValue: Json, isMaker: Json, wt: Json, ot: Json, cp: Json, rp: Json)

  /** `formatOrderUpdate`'s record: `o` is the push's order object, `event` its envelope. */
  function FormatOrder(o: Obj, event: Obj): Order
  {
    Order(
      avgPrice := Pick3(o, "ap", "avgPrice", Str("0")),
      clientOrderId := Pick3(o, "c", "clientOrderId", Str("")),
      cumQuote := Pick3(o, "z", "cumQuote", Str("0")),
      executedQty := Pick3(o, "z", "executedQty", Str("0")),
      orderId := Pick2(o, "i", "orderId"),
      origQty := Pick3(o, "q", "origQty", Str("0")),
      origType := Pick3(o, "ot", "origType", Str("")),
      price := Pick3(o, "p", "price", Str("0")),
      reduceOnly := Pick3(o, "R", "reduceOnly", Bool(false)),
      side := Pick3(o, "S", "side", Str("")),
      positionSide := Pick3(o, "ps", "positionSide", Str("")),
      status := Pick3(o, "X", "status", Str("")),
      stopPrice := Pick3(o, "sp", "stopPrice", Str("")),
      closePosition := Pick3(o, "cp", "closePosition", Bool(false)),
      symbol := Pick3(o, "s", "symbol", Str("")),
      time := Pick3(o, "T", "time", Num(0)),
      timeInForce := Pick3(o, "f", "timeInForce", Str("")),
      orderType := Pick3(o, "o", "type", Str("")),
      activatePrice := Pick2(o, "AP", "activatePrice"),
      priceRate := Pick2(o, "cr", "priceRate"),
      updateTime := Pick3(o, "T", "updateTime", Num(0)),
      workingType := Pick3(o, "wt", "workingType", Str("")),
      priceProtect := Pick3(o, "PP", "priceProtect", Bool(false)),
      eventType := Get(event, "e"),
      eventTime := Get(event, "E"),
      matchTime := Get(event, "T"),
      lastFilledQty := Get(o, "l"),
      lastFilledPrice := Get(o, "L"),
      commissionAsset := Get(o, "N"),
      commission := Get(o, "n"),
      tradeId := Get(o, "t"),
      bidValue := Get(o, "b"),
      askValue := Get(o, "a"),
      isMaker := Get(o, "m"),
      wt := Get(o, "wt"),
      ot := Get(o, "ot"),
      cp := Get(o, "cp"),
      rp := Get(o, "rp"))
  }

  /** How many fields pushes and REST records share. */
  const SHARED_FIELDS: nat := 23

  /** The shared fields, numbered in declaration order (grouped by six so
      that each number is reached in few steps). */
  function SharedField(r: Order, i: nat): Json
    requires i < SHARED_FIELDS
  {
    if i < 6 then
      match i
      case 0 => r.avgPrice
      case 1 => r.clientOrderId
      case 2 => r.cumQuote
      case 3 => r.executedQty
      case 4 => r.orderId
      case _ => r.origQty
    else if i < 12 then
      match i
      case 6 => r.origType
      case 7 => r.price
      case 8 => r.reduceOnly
      case 9 => r.side
      case 10 => r.positionSide
      case _ => r.status
    else if i < 18 then
      match i
      case 12 => r.stopPrice
      case 13 => r.closePosition
      case 14 => r.symbol
      case 15 => r.time
      case 16 => r.timeInForce
      case _ => r.orderType
    else if i < 21 then
      match i
      case 18 => r.activatePrice
      case 19 => r.priceRate
      case _ => r.updateTime
    else if i == 21 then r.workingType
    else r.priceProtect
  }

  /** Where shared field `i` comes from: compact push key, verbose REST key,
      and the default (None: no default, the verbose value is taken as is). */
  function FieldSource(i: nat): (string, string, Option<Json>)
    requires i < SHARED_FIELDS
  {
    if i < 6 then
      match i
      case 0 => ("ap", "avgPrice", Some(Str("0")))
      case 1 => ("c", "clientOrderId", Some(Str("")))
      case 2 => ("z", "cumQuote", Some(Str("0")))
      case 3 => ("z", "executedQty", Some(Str("0")))
      case 4 => ("i", "orderId", None)
      case _ => ("q", "origQty", Some(Str("0")))
    else if i < 12 then
      match i
      case 6 => ("ot", "origType", Some(Str("")))
      case 7 => ("p", "price", Some(Str("0")))
      case 8 => ("R", "reduceOnly", Some(Bool(false)))
      case 9 => ("S", "side", Some(Str("")))
      case 10 => ("ps", "positionSide", Some(Str("")))
      case _ => ("X", "status", Some(Str("")))
    else if i < 18 then
      match i
      case 12 => ("sp", "stopPrice", Some(Str("")))
      case 13 => ("cp", "closePosition", Some(Bool(false)))
      case 14 => ("s", "symbol", Some(Str("")))
      case 15 => ("T", "time", Some(Num(0)))
      case 16 => ("f", "timeInForce", Some(Str("")))
      case _ => ("o", "type", Some(Str("")))
    else if i < 21 then
      match i
      case 18 => ("AP", "activatePrice", None)
      case 19 => ("cr", "priceRate", None)
      case _ => ("T", "updateTime", Some(Num(0)))
    else if i == 21 then ("wt", "workingType", Some(Str("")))
    else ("PP", "priceProtect", Some(Bool(false)))
  }

  /** The value the rule "compact key if present, else verbose key, else default" gives. */
  function RuleValue(o: Obj, src: (string, string, Option<Json>)): (v: Json)
    ensures !IsNullish(Get(o, src.0)) ==> v == Get(o, src.0)
    ensures IsNullish(Get(o, src.0)) && (src.2.None? || !IsNullish(Get(o, src.1))) ==> v == Get(o, src.1)
    ensures IsNullish(Get(o, src.0)) && src.2.Some? && IsNullish(Get(o, src.1)) ==> v == src.2.value
  {
    if src.2.Some? then Pick3(o, src.0, src.1, src.2.value) else Pick2(o, src.0, src.1)
  }

  /** Every shared field follows the table: compact key, else verbose key, else default. */
  lemma FormatOrderFollowsTable(o: Obj, event: Obj)
    ensures forall i :: 0 <= i < SHARED_FIELDS ==>
      SharedField(FormatOrder(o, event), i) == RuleValue(o, FieldSource(i))
  {
    forall i | 0 <= i < SHARED_FIELDS
      ensures SharedField(FormatOrder(o, event), i) == RuleValue(o, FieldSource(i))
    {
      FieldFollowsTable(o, event, i);
    }
  }

  /** One row of the table. */
  lemma FieldFollowsTable(o: Obj, event: Obj, i: nat)
    requires i < SHARED_FIELDS
    ensures SharedField(FormatOrder(o, event), i) == RuleValue(o, FieldSource(i))
  {
    if i < 6 {
      RowsFollowTable1(o, event, i);
    } else if i < 9 {
      RowsFollowTable2(o, event, i);
    } else if i < 12 {
      RowsFollowTable3(o, event, i);
    } else if i < 15 {
      RowsFollowTable4(o, event, i);
    } else if i < 18 {
      RowsFollowTable5(o, event, i);
    } else if i < 21 {
      RowsFollowTable6(o, event, i);
    } else {
      RowsFollowTable7(o, event, i);
    }
  }

  lemma RowsFollowTable1(o: Obj, event: Obj, i: nat)
    requires i < 6
    ensures SharedField(FormatOrder(o, event), i) == RuleValue(o, FieldSource(i))
  {
    match i
    case 0 => case 1 => case 2 => case 3 => case 4 =>
    case _ => assert i == 5;
  }

  lemma RowsFollowTable2(o: Obj, event: Obj, i: nat)
    requires 6 <= i < 9
    ensures SharedField(FormatOrder(o, event), i) == RuleValue(o, FieldSource(i))
  {
    match i
    case 6 => case 7 =>
    case _ => assert i == 8;
  }

  lemma RowsFollowTable3(o: Obj, event: Obj, i: nat)
    requires 9 <= i < 12
    ensures SharedField(FormatOrder(o, event), i) == RuleValue(o, FieldSource(i))
  {
    match i
    case 9 => case 10 =>
    case _ => assert i == 11;
  }

  lemma RowsFollowTable4(o: Obj, event: Obj, i: nat)
    requires 12 <= i < 15
    ensures SharedField(FormatOrder(o, event), i) == RuleValue(o, FieldSource(i))
  {
    match i
    case 12 => case 13 =>
    case _ => assert i == 14;
  }

  lemma RowsFollowTable5(o: Obj, event: Obj, i: nat)
    requires 15 <= i < 18
    ensures SharedField(FormatOrder(o, event), i) == RuleValue(o, FieldSource(i))
  {
    match i
    case 15 => case 16 =>
    case _ => assert i == 17;
  }

  lemma RowsFollowTable6(o: Obj, event: Obj, i: nat)
    requires 18 <= i < 21
    ensures SharedField(FormatOrder(o, event), i) == RuleValue(o, FieldSource(i))
  {
    match i
    case 18 => case 19 =>
    case _ => assert i == 20;
  }

  lemma RowsFollowTable7(o: Obj, event: Obj, i: nat)
    requires 21 <= i < SHARED_FIELDS
    ensures SharedField(FormatOrder(o, event), i) == RuleValue(o, FieldSource(i))
  {
    if i == 21 {
    } else {
      assert i == 22;
    }
  }

  /** A verbose REST record (no compact key set) keeps its own values. */
  lemma RestRecordKeepsItsValues(o: Obj, event: Obj)
    requires forall i :: 0 <= i < SHARED_FIELDS ==> IsNullish(Get(o, FieldSource(i).0))
    requires forall i :: 0 <= i < SHARED_FIELDS ==> !IsNullish(Get(o, FieldSource(i).1))
    ensures forall i :: 0 <= i < SHARED_FIELDS ==>
      SharedField(FormatOrder(o, event), i) == Get(o, FieldSource(i).1)
  {
    FormatOrderFollowsTable(o, event);
  }

  /** `z` feeds both `cumQuote` and `executedQty`; `T` feeds both `time` and
      `updateTime`. */
  lemma SharedCompactKeys(o: Obj, event: Obj)
    ensures !IsNullish(Get(o, "z")) ==>
      FormatOrder(o, event).cumQuote == FormatOrder(o, event).executedQty == Get(o, "z")
    ensures !IsNullish(Get(o, "T")) ==>
      FormatOrder(o, event).time == FormatOrder(o, event).updateTime == Get(o, "T")
  {
  }

  // ----- klines -----

  /** The canonical candle (`AsterKline`). */
  datatype Kline = Kline(
    openTime: Json, open: Json, high: Json, low: Json, close: Json, volume: Json,
    closeTime: Json, quoteAssetVolume: Json, numberOfTrades: Json,
    takerBuyBaseAssetVolume: Json, takerBuyQuoteAssetVolume: Json,
    // push-only fields
    eventType: Json, eventTime: Json, symbol: Json, interval: Json,
    firstTradeId: Json, lastTradeId: Json, isClosed: Json)

  /** `arr[i]`, `undefined` past the end. */
  function At(arr: seq<Json>, i: nat): Json
  {
    if i < |arr| then arr[i] else Undefined
  }

  /** `formatKlineArray`: positional REST candle. */
  function FormatKlineArray(arr: seq<Json>): Kline
  {
    Kline(At(arr, 0), At(arr, 1), At(arr, 2), At(arr, 3), At(arr, 4), At(arr, 5),
          At(arr, 6), At(arr, 7), At(arr, 8), At(arr, 9), At(arr, 10),
          Undefined, Undefined, Undefined, Undefined, Undefined, Undefined, Undefined)
  }

  /** `formatWsKline(k, event)`; the message handler passes no envelope. */
  function FormatWsKline(k: Obj, event: Option<Obj>): Kline
  {
    var ev := if event.Some? then event.value else map[];
    Kline(Get(k, "t"), Get(k, "o"), Get(k, "h"), Get(k, "l"), Get(k, "c"), Get(k, "v"),
          Get(k, "T"), Get(k, "q"), Get(k, "n"), Get(k, "V"), Get(k, "Q"),
          Get(ev, "e"), Get(ev, "E"), Coalesce(Get(k, "s"), Get(ev, "s")), Get(k, "i"),
          Get(k, "f"), Get(k, "L"), Get(k, "x"))
  }

  /** The push keys, position by position, of the eleven REST candle columns. */
  const KlineColumns: seq<string> := ["t", "o", "h", "l", "c", "v", "T", "q", "n", "V", "Q"]

  function KlineCore(k: Kline): seq<Json>
  {
    [k.openTime, k.open, k.high, k.low, k.close, k.volume, k.closeTime,
     k.quoteAssetVolume, k.numberOfTrades, k.takerBuyBaseAssetVolume, k.takerBuyQuoteAssetVolume]
  }

  /** A REST candle and a pushed candle carrying the same eleven values give
      the same eleven canonical fields. */
  lemma KlinePathsAgreeOnColumns(arr: seq<Json>, k: Obj, event: Option<Obj>)
    requires forall i :: 0 <= i < |KlineColumns| ==> At(arr, i) == Get(k, KlineColumns[i])
    ensures KlineCore(FormatKlineArray(arr)) == KlineCore(FormatWsKline(k, event))
  {
    forall i | 0 <= i < |KlineColumns|
      ensures KlineCore(FormatKlineArray(arr))[i] == KlineCore(FormatWsKline(k, event))[i]
    {
    }
  }

  /** ...but the two records are not identical: the pushed candle also carries
      its interval (and symbol, trade ids, closed flag), the REST one does not. */
  lemma KlinePathsDifferOnPushFields()
    ensures var arr := [Num(1)];
      var k := map["t" := Num(1), "i" := Str("1m")];
      && KlineCore(FormatKlineArray(arr))[0] == KlineCore(FormatWsKline(k, None))[0]
      && FormatKlineArray(arr) != FormatWsKline(k, None)
  {
    var k := map["t" := Num(1), "i" := Str("1m")];
    assert FormatWsKline(k, None).interval == Str("1m");
  }

  // ----- ticker -----

  /** The canonical ticker (`AsterTicker`). */
  datatype Ticker = Ticker(
    symbol: Json, lastPrice: Json, openPrice: Json, highPrice: Json, lowPrice: Json,
    volume: Json, quoteVolume: Json,
    // REST-only statistics
    priceChange: Json, priceChangePercent: Json, weightedAvgPrice: Json, lastQty: Json,
    openTime: Json, closeTime: Json, firstId: Json, lastId: Json, count: Json,
    // push-only fields
    eventType: Json, eventTime: Json)

  const MINI_TICKER_EVENT: Json := Str("24hrMiniTicker")

  /** `formatTickerData`: a mini-ticker push when `e` says so, else a REST ticker. */
  function FormatTicker(data: Obj): (t: Ticker)
    ensures Get(data, "e") == MINI_TICKER_EVENT ==>
      t.priceChange == t.priceChangePercent == t.weightedAvgPrice == t.lastQty == Undefined
      && t.openTime == t.closeTime == t.firstId == t.lastId == t.count == Undefined
    ensures Get(data, "e") != MINI_TICKER_EVENT ==> t.eventType == t.eventTime == Undefined
  {
    if Get(data, "e") == MINI_TICKER_EVENT then
      Ticker(Get(data, "s"), Get(data, "c"), Get(data, "o"), Get(data, "h"), Get(data, "l"),
             Get(data, "v"), Get(data, "q"),
             Undefined, Undefined, Undefined, Undefined, Undefined, Undefined, Undefined,
             Undefined, Undefined,
             Get(data, "e"), Get(data, "E"))
    else
      Ticker(Get(data, "symbol"), Get(data, "lastPrice"), Get(data, "openPrice"),
             Get(data, "highPrice"), Get(data, "lowPrice"), Get(data, "volume"),
             Get(data, "quoteVolume"),
             Get(data, "priceChange"), Get(data, "priceChangePercent"),
             Get(data, "weightedAvgPrice"), Get(data, "lastQty"), Get(data, "openTime"),
             Get(data, "closeTime"), Get(data, "firstId"), Get(data, "lastId"), Get(data, "count"),
             Undefined, Undefined)
  }

  const TickerPushKeys: seq<string> := ["s", "c", "o", "h", "l", "v", "q"]
  const TickerRestKeys: seq<string> := ["symbol", "lastPrice", "openPrice", "highPrice", "lowPrice", "volume", "quoteVolume"]

  function TickerCore(t: Ticker): seq<Json>
  {
    [t.symbol, t.lastPrice, t.openPrice, t.highPrice, t.lowPrice, t.volume, t.quoteVolume]
  }

  /** The seven common fields come from the compact keys of a push, else from
      the verbose keys of a REST reply. */
  lemma TickerFollowsKeys(data: Obj)
    ensures Get(data, "e") == MINI_TICKER_EVENT ==>
      forall i :: 0 <= i < |TickerPushKeys| ==> TickerCore(FormatTicker(data))[i] == Get(data, TickerPushKeys[i])
    ensures Get(data, "e") != MINI_TICKER_EVENT ==>
      forall i :: 0 <= i < |TickerRestKeys| ==> TickerCore(FormatTicker(data))[i] == Get(data, TickerRestKeys[i])
  {
  }

  /** A push and a REST reply carrying the same seven common values populate
      the same seven canonical fields. */
  lemma TickerPathsAgree(push: Obj, rest: Obj)
    requires Get(push, "e") == MINI_TICKER_EVENT && Get(rest, "e") != MINI_TICKER_EVENT
    requires forall i :: 0 <= i < |TickerPushKeys| ==> Get(push, TickerPushKeys[i]) == Get(rest, TickerRestKeys[i])
    ensures TickerCore(FormatTicker(push)) == TickerCore(FormatTicker(rest))
  {
    TickerFollowsKeys(push);
    TickerFollowsKeys(rest);
    forall i | 0 <= i < |TickerPushKeys|
      ensures TickerCore(FormatTicker(push))[i] == TickerCore(FormatTicker(rest))[i]
    {
    }
  }

  // ----- depth -----

  /** The canonical order book (`AsterDepth`). */
  datatype Depth = Depth(
    eventType: Json, eventTime: Json, tradeTime: Json, symbol: Json,
    firstUpdateId: Json, lastUpdateId: Json, prevUpdateId: Json, bids: Json, asks: Json)

  /** `formatDepthData`: push keys `u`/`b`/`a`, else REST keys; sides default to `[]`. */
  function FormatDepth(data: Obj): (d: Depth)
    ensures !IsNullish(d.bids) && !IsNullish(d.asks)
    ensures !IsNullish(Get(data, "b")) ==> d.bids == Get(data, "b")
    ensures IsNullish(Get(data, "b")) && IsNullish(Get(data, "bids")) ==> d.bids == Arr([])
    ensures !IsNullish(Get(data, "a")) ==> d.asks == Get(data, "a")
    ensures IsNullish(Get(data, "a")) && IsNullish(Get(data, "asks")) ==> d.asks == Arr([])
  {
    Depth(Get(data, "e"), Get(data, "E"), Get(data, "T"), Get(data, "s"), Get(data, "U"),
          Pick2(data, "u", "lastUpdateId"), Get(data, "pu"),
          Pick3(data, "b", "bids", Arr([])), Pick3(data, "a", "asks", Arr([])))
  }

  /** A depth push and a REST depth snapshot with the same levels and update id
      give the same book sides and update id. */
  lemma DepthPathsAgree(push: Obj, rest: Obj)
    requires !IsNullish(Get(push, "u")) && IsNullish(Get(rest, "u"))
    requires !IsNullish(Get(push, "b")) && IsNullish(Get(rest, "b"))
    requires !IsNullish(Get(push, "a")) && IsNullish(Get(rest, "a"))
    requires Get(push, "u") == Get(rest, "lastUpdateId")
    requires Get(push, "b") == Get(rest, "bids") && Get(push, "a") == Get(rest, "asks")
    ensures FormatDepth(push).lastUpdateId == FormatDepth(rest).lastUpdateId
    ensures FormatDepth(push).bids == FormatDepth(rest).bids
    ensures FormatDepth(push).asks == FormatDepth(rest).asks
  {
  }
}
