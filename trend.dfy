/**
 * The trend-following strategy of strategies/trend-following.ts: the
 * `watchOrder` callback that releases order-type locks and keeps the
 * non-market open orders, the SMA30 crossover that opens a position, the
 * stop, trailing-stop and forced-close decisions that manage one, and the
 * statistics the main loop keeps.
 *
 * The exchange calls a decision makes are returned as `Action`s in the
 * order the strategy issues them; each is one of the `OrderOps` operations
 * or a plain cancel. `parseFloat` is a parameter.
 */
module TrendFollowing {
  import opened Common
  import opened OrderOps
  import opened Helper
  import Reconcile

  const MAX_LOSS_PER_TRADE: real := 0.03
  const TRAILING_STOP_PROFIT_ACTIVATION: real := 0.2
  /** Profit above which the stop is moved to lock in `PROFIT_MOVE`. */
  const PROFIT_TRIGGER: real := 0.1
  const PROFIT_MOVE: real := 0.05
  /** An existing stop this close to the target price is left alone. */
  const STOP_TOLERANCE: real := 0.01
  const FLAT_EPSILON: real := 0.00001

  // ----- the `watchOrder` callback -----

  /** `orders.find(o => String(o.orderId) === String(pid))` as an index. */
  function FindPending(orders: seq<Obj>, pid: Json): (i: nat)
    ensures i <= |orders|
    ensures i < |orders| ==> JsString(Get(orders[i], "orderId")) == JsString(pid)
    ensures forall j :: 0 <= j < i ==> JsString(Get(orders[j], "orderId")) != JsString(pid)
  {
    Reconcile.FirstMatch(orders, o => JsString(Get(o, "orderId")) == JsString(pid))
  }

  /** Whether the callback unlocks a type whose pending id is `pid`: the id
      is truthy and its order is missing, or present with a truthy status
      other than NEW. */
  predicate Releases(orders: seq<Obj>, pid: Json): (released: bool)
    ensures released ==> Truthy(pid)
    ensures released && FindPending(orders, pid) < |orders| ==>
      Get(orders[FindPending(orders, pid)], "status") != Str("NEW")
  {
    Truthy(pid) &&
    var i := FindPending(orders, pid);
    i == |orders| || (Truthy(Get(orders[i], "status")) && Get(orders[i], "status") != Str("NEW"))
  }

  function ReleasedTypes(pending: map<string, Json>, orders: seq<Obj>): (r: set<string>)
    ensures r <= pending.Keys
    ensures forall k :: k in r ==> Truthy(pending[k])
  {
    set k | k in pending && Releases(orders, pending[k])
  }

  /** A type whose pending order is listed with status NEW (its first
      listing, as `find` reads it) keeps its lock. */
  lemma ListedNewOrderHolds(pending: map<string, Json>, orders: seq<Obj>, kind: string, i: nat)
    requires kind in pending && i < |orders|
    requires JsString(Get(orders[i], "orderId")) == JsString(pending[kind])
    requires forall o :: o in orders && JsString(Get(o, "orderId")) == JsString(pending[kind]) ==> Get(o, "status") == Str("NEW")
    ensures kind !in ReleasedTypes(pending, orders)
  {
    var j := FindPending(orders, pending[kind]);
    assert j <= i;
    assert orders[j] in orders;
  }

  /** A type whose pending order is missing from the list is released. */
  lemma MissingOrderReleases(pending: map<string, Json>, orders: seq<Obj>, kind: string)
    requires kind in pending && Truthy(pending[kind])
    requires forall o :: o in orders ==> JsString(Get(o, "orderId")) != JsString(pending[kind])
    ensures kind in ReleasedTypes(pending, orders)
  {
  }

  /** A type whose pending order is listed first with status NEW, or with no
      status, stays locked; one listed with any other status is released. */
  lemma ListedOrderStatusDecides(pending: map<string, Json>, orders: seq<Obj>, kind: string, i: nat)
    requires kind in pending && Truthy(pending[kind])
    requires i < |orders| && JsString(Get(orders[i], "orderId")) == JsString(pending[kind])
    requires forall j :: 0 <= j < i ==> JsString(Get(orders[j], "orderId")) != JsString(pending[kind])
    ensures kind in ReleasedTypes(pending, orders) <==>
      Truthy(Get(orders[i], "status")) && Get(orders[i], "status") != Str("NEW")
  {
    var f := FindPending(orders, pending[kind]);
    if f < i {
      assert false;
    }
    if i < f {
      assert false;
    }
  }

  /** A type with a falsy pending id (`null` after a release) is never
      released again by the callback, locked or not. */
  lemma NullPendingIsKept(pending: map<string, Json>, orders: seq<Obj>, kind: string)
    requires kind in pending && !Truthy(pending[kind])
    ensures kind !in ReleasedTypes(pending, orders)
  {
  }

  /** The lock table after `unlockOrderType` on every type in `r`. */
  function ReleaseLocks(locks: map<string, bool>, r: set<string>): map<string, bool>
  {
    map k | k in locks.Keys + r :: if k in r then false else locks[k]
  }

  function ReleasePending(pending: map<string, Json>, r: set<string>): map<string, Json>
  {
    map k | k in pending.Keys + r :: if k in r then Null else pending[k]
  }

  function ReleaseTimers(timers: map<string, Option<nat>>, r: set<string>): map<string, Option<nat>>
  {
    map k | k in timers.Keys + r :: if k in r then None else timers[k]
  }

  function ReleaseArmed(armed: map<nat, string>, r: set<string>): map<nat, string>
  {
    map h | h in armed && armed[h] !in r :: armed[h]
  }

  /** Releasing one more type is one `unlockOrderType`. */
  lemma ReleaseOneMore(locks: map<string, bool>, pending: map<string, Json>, timers: map<string, Option<nat>>,
                       armed: map<nat, string>, r: set<string>, kind: string)
    ensures ReleaseLocks(locks, r)[kind := false] == ReleaseLocks(locks, r + {kind})
    ensures ReleasePending(pending, r)[kind := Null] == ReleasePending(pending, r + {kind})
    ensures ReleaseTimers(timers, r)[kind := None] == ReleaseTimers(timers, r + {kind})
    ensures (map h | h in ReleaseArmed(armed, r) && ReleaseArmed(armed, r)[h] != kind :: ReleaseArmed(armed, r)[h])
         == ReleaseArmed(armed, r + {kind})
  {
    ReleaseOneMoreLock(locks, r, kind);
    ReleaseOneMorePending(pending, r, kind);
    ReleaseOneMoreTimer(timers, r, kind);
  }

  lemma ReleaseOneMoreLock(locks: map<string, bool>, r: set<string>, kind: string)
    ensures ReleaseLocks(locks, r)[kind := false] == ReleaseLocks(locks, r + {kind})
  {
    assert ReleaseLocks(locks, r)[kind := false].Keys == ReleaseLocks(locks, r + {kind}).Keys;
  }

  lemma ReleaseOneMorePending(pending: map<string, Json>, r: set<string>, kind: string)
    ensures ReleasePending(pending, r)[kind := Null] == ReleasePending(pending, r + {kind})
  {
    assert ReleasePending(pending, r)[kind := Null].Keys == ReleasePending(pending, r + {kind}).Keys;
  }

  lemma ReleaseOneMoreTimer(timers: map<string, Option<nat>>, r: set<string>, kind: string)
    ensures ReleaseTimers(timers, r)[kind := None] == ReleaseTimers(timers, r + {kind})
  {
    assert ReleaseTimers(timers, r)[kind := None].Keys == ReleaseTimers(timers, r + {kind}).Keys;
  }

  /** Releasing nothing changes nothing. */
  lemma ReleaseNothing(locks: map<string, bool>, pending: map<string, Json>, timers: map<string, Option<nat>>,
                       armed: map<nat, string>)
    ensures ReleaseLocks(locks, {}) == locks && ReleasePending(pending, {}) == pending
    ensures ReleaseTimers(timers, {}) == timers && ReleaseArmed(armed, {}) == armed
  {
    assert ReleaseLocks(locks, {}).Keys == locks.Keys;
    assert ReleasePending(pending, {}).Keys == pending.Keys;
    assert ReleaseTimers(timers, {}).Keys == timers.Keys;
    assert ReleaseArmed(armed, {}).Keys == armed.Keys;
  }

  /** `orders.filter(o => o.type !== 'MARKET')` */
  function NonMarket(orders: seq<Obj>): (r: seq<Obj>)
    ensures forall o :: o in r <==> o in orders && Get(o, "type") != Str("MARKET")
    ensures |r| <= |orders|
  {
    if orders == [] then []
    else
      var rest := NonMarket(orders[1..]);
      assert forall o :: o in orders <==> o == orders[0] || o in orders[1..];
      if Get(orders[0], "type") != Str("MARKET") then [orders[0]] + rest else rest
  }

  /** The filter keeps the published order: it distributes over
      concatenation. */
  lemma {:induction false} NonMarketAppend(a: seq<Obj>, b: seq<Obj>)
    ensures NonMarket(a + b) == NonMarket(a) + NonMarket(b)
    decreases |a|
  {
    if a != [] {
      assert (a + b)[1..] == a[1..] + b;
      NonMarketAppend(a[1..], b);
    } else {
      assert a + b == b;
    }
  }

  // ----- opening a position -----

  /** `hasNoPosition`: `|positionAmt| < 0.00001`. A held position has a
      sign, so its closing side and the `1 / |positionAmt|` of the
      profit-move stop are defined. */
  predicate HasNoPosition(p: Position): (flat: bool)
    ensures !flat ==> p.positionAmt > 0.0 || p.positionAmt < 0.0
    ensures p.positionAmt == 0.0 ==> flat
  {
    Abs(p.positionAmt) < FLAT_EPSILON
  }

  /** The exchange calls of one decision. */
  datatype Action =
    | CancelAll
    | CancelOrder(orderId: Json)
    | CancelMany(orderIds: seq<Json>)
    | MarketOrder(side: string, amount: real)
    | StopLoss(side: string, stopPrice: real)
    | TrailingStop(side: string, activationPrice: real, quantity: real)
    | ClosePosition(side: string)
  {
    predicate HasSide() { !CancelAll? && !CancelOrder? && !CancelMany? }
  }

  /** The crossover of `handlePositionOpening`: SELL when the price crossed
      below the SMA since the last tick, BUY when it crossed above, nothing
      before the first tick or without a strict cross. */
  function OpenSignal(lastPrice: Option<real>, sma: real, price: real): (r: Option<string>)
    ensures r == Some("SELL") <==> lastPrice.Some? && lastPrice.value > sma && price < sma
    ensures r == Some("BUY") <==> lastPrice.Some? && lastPrice.value < sma && price > sma
    ensures r.Some? ==> r == Some("SELL") || r == Some("BUY")
  {
    if lastPrice.None? then None
    else if lastPrice.value > sma && price < sma then Some("SELL")
    else if lastPrice.value < sma && price > sma then Some("BUY")
    else None
  }

  /** A signal needs the SMA strictly between the two prices, so a price that
      did not move never opens a position. */
  lemma SignalNeedsMove(lastPrice: Option<real>, sma: real, price: real)
    requires OpenSignal(lastPrice, sma, price).Some?
    ensures lastPrice.Some? && lastPrice.value != price
    ensures (lastPrice.value < sma < price) || (price < sma < lastPrice.value)
  {
  }

  /** `handlePositionOpening`: cancel everything open, then a market order
      on the signal's side. */
  function Opening(lastPrice: Option<real>, sma: real, price: real, openOrders: seq<Obj>): (acts: seq<Action>)
    ensures (CancelAll in acts) <==> |openOrders| > 0
    ensures forall a :: a in acts && a.MarketOrder? ==>
      Some(a.side) == OpenSignal(lastPrice, sma, price) && a.amount == TRADING_AMOUNT
    ensures OpenSignal(lastPrice, sma, price).Some? <==> exists a :: a in acts && a.MarketOrder?
  {
    var cancel := if |openOrders| > 0 then [CancelAll] else [];
    var signal := OpenSignal(lastPrice, sma, price);
    var open := if signal.Some? then [MarketOrder(signal.value, TRADING_AMOUNT)] else [];
    assert signal.Some? ==> open[0] in cancel + open;
    cancel + open
  }

  // ----- managing a position -----

  datatype Plan = Plan(actions: seq<Action>, closed: bool, pnl: real)

  /** The open order `find` picks for a type on the closing side. */
  function FindKind(openOrders: seq<Obj>, kind: string, side: string): (i: nat)
    ensures i <= |openOrders|
    ensures i < |openOrders| ==> Get(openOrders[i], "type") == Str(kind) && Get(openOrders[i], "side") == Str(side)
    ensures forall j :: 0 <= j < i ==> !(Get(openOrders[j], "type") == Str(kind) && Get(openOrders[j], "side") == Str(side))
  {
    Reconcile.FirstMatch(openOrders, o => Get(o, "type") == Str(kind) && Get(o, "side") == Str(side))
  }

  /** The side that reduces the position: SELL for a long, BUY otherwise. */
  function CloseSide(p: Position): string
  {
    if p.positionAmt > 0.0 then "SELL" else "BUY"
  }

  /** Profit of the position at `price`. */
  function Pnl(p: Position, price: real): (pnl: real)
    ensures pnl > 0.0 <==> (p.positionAmt > 0.0 && price > p.entryPrice) || (p.positionAmt < 0.0 && price < p.entryPrice)
    ensures pnl < 0.0 <==> (p.positionAmt > 0.0 && price < p.entryPrice) || (p.positionAmt < 0.0 && price > p.entryPrice)
  {
    var move := if p.positionAmt > 0.0 then price - p.entryPrice else p.entryPrice - price;
    ProductSign(move, Abs(p.positionAmt));
    move * Abs(p.positionAmt)
  }

  lemma ProductSign(a: real, b: real)
    requires b >= 0.0
    ensures a * b > 0.0 <==> a > 0.0 && b > 0.0
    ensures a * b < 0.0 <==> a < 0.0 && b > 0.0
  {
    if a > 0.0 && b > 0.0 { assert a * b > 0.0; }
    if a < 0.0 && b > 0.0 { assert a * b < 0.0; }
  }

  /** The stop that locks in `PROFIT_MOVE`, floored to one decimal: the price
      at which the position has gained `PROFIT_MOVE`, less under 0.1. */
  function ProfitMoveStop(p: Position): (stop: real)
    requires !HasNoPosition(p)
    ensures p.positionAmt > 0.0 ==>
      p.entryPrice + PROFIT_MOVE / Abs(p.positionAmt) - 0.1 < stop <= p.entryPrice + PROFIT_MOVE / Abs(p.positionAmt)
    ensures p.positionAmt < 0.0 ==>
      p.entryPrice - PROFIT_MOVE / Abs(p.positionAmt) - 0.1 < stop <= p.entryPrice - PROFIT_MOVE / Abs(p.positionAmt)
  {
    var q := Abs(p.positionAmt);
    if p.positionAmt > 0.0 then RoundPrice(p.entryPrice + PROFIT_MOVE / q) else RoundPrice(p.entryPrice - PROFIT_MOVE / q)
  }

  /** A stop hit at the profit-move price realises at most `PROFIT_MOVE` on a
      long and at least `PROFIT_MOVE` on a short: flooring moves a long's
      stop toward the entry and a short's away from it. */
  lemma ProfitMoveStopLocksIn(p: Position)
    requires !HasNoPosition(p)
    ensures p.positionAmt > 0.0 ==> (ProfitMoveStop(p) - p.entryPrice) * p.positionAmt <= PROFIT_MOVE
    ensures p.positionAmt < 0.0 ==> (p.entryPrice - ProfitMoveStop(p)) * Abs(p.positionAmt) >= PROFIT_MOVE
  {
    var q, stop := Abs(p.positionAmt), ProfitMoveStop(p);
    assert PROFIT_MOVE / q * q == PROFIT_MOVE;
    if p.positionAmt > 0.0 {
      assert stop - p.entryPrice <= PROFIT_MOVE / q;
      assert (stop - p.entryPrice) * q <= PROFIT_MOVE / q * q;
    } else {
      assert p.entryPrice - stop >= PROFIT_MOVE / q;
      assert (p.entryPrice - stop) * q >= PROFIT_MOVE / q * q;
    }
  }

  /** Every order-placing call is on `side`. */
  predicate OnSide(acts: seq<Action>, side: string)
  {
    forall a :: a in acts && a.HasSide() ==> a.side == side
  }

  /** The current stop on the closing side exists and is more than 0.01 away
      from the profit-move price. */
  predicate StopIsFar(p: Position, openOrders: seq<Obj>, parseFloat: Json -> real)
    requires !HasNoPosition(p)
  {
    var cur := FindKind(openOrders, "STOP_MARKET", CloseSide(p));
    cur < |openOrders| && Abs(parseFloat(Get(openOrders[cur], "stopPrice")) - ProfitMoveStop(p)) > STOP_TOLERANCE
  }

  /** The profit-move part: with profit above 0.1, place the moved stop when
      there is no stop, replace a stop more than 0.01 away, keep one close by. */
  function MoveStop(p: Position, pnl: real, openOrders: seq<Obj>, parseFloat: Json -> real): (acts: seq<Action>)
    requires !HasNoPosition(p)
    ensures OnSide(acts, CloseSide(p))
    ensures forall a :: a in acts ==> a.StopLoss? || a.CancelOrder?
    ensures (exists a :: a in acts && a.CancelOrder?) <==>
      (pnl > PROFIT_TRIGGER || p.unrealizedProfit > PROFIT_TRIGGER) && StopIsFar(p, openOrders, parseFloat)
  {
    var side := CloseSide(p);
    var target := ProfitMoveStop(p);
    var cur := FindKind(openOrders, "STOP_MARKET", side);
    if !(pnl > PROFIT_TRIGGER || p.unrealizedProfit > PROFIT_TRIGGER) then []
    else if cur == |openOrders| then [StopLoss(side, target)]
    else if Abs(parseFloat(Get(openOrders[cur], "stopPrice")) - target) > STOP_TOLERANCE then
      var acts := [CancelOrder(Get(openOrders[cur], "orderId")), StopLoss(side, target)];
      assert acts[0] in acts;
      acts
    else []
  }

  /** The initial stop and the trailing stop, each placed only when no order
      of its type is open on the closing side. */
  function Protect(p: Position, openOrders: seq<Obj>): (acts: seq<Action>)
    requires !HasNoPosition(p)
    ensures OnSide(acts, CloseSide(p))
    ensures forall a :: a in acts ==> a.StopLoss? || a.TrailingStop?
    ensures (exists a :: a in acts && a.StopLoss?) <==> FindKind(openOrders, "STOP_MARKET", CloseSide(p)) == |openOrders|
    ensures (exists a :: a in acts && a.TrailingStop?) <==>
      FindKind(openOrders, "TRAILING_STOP_MARKET", CloseSide(p)) == |openOrders|
  {
    var side := CloseSide(p);
    var q := Abs(p.positionAmt);
    var dir := if p.positionAmt > 0.0 then Long else Short;
    var initial := if FindKind(openOrders, "STOP_MARKET", side) == |openOrders| then
      [StopLoss(side, RoundPrice(StopLossPrice(p.entryPrice, q, dir, MAX_LOSS_PER_TRADE)))] else [];
    var trailing := if FindKind(openOrders, "TRAILING_STOP_MARKET", side) == |openOrders| then
      [TrailingStop(side, RoundPrice(TrailingActivationPrice(p.entryPrice, q, dir, TRAILING_STOP_PROFIT_ACTIVATION)), q)]
      else [];
    assert forall a :: a in initial + trailing <==> a in initial || a in trailing;
    assert initial != [] ==> initial[0] in initial;
    assert trailing != [] ==> trailing[0] in trailing;
    initial + trailing
  }

  /** The forced close: cancel every open order (when there are any), then
      close the position at market. */
  function ForceClose(p: Position, openOrders: seq<Obj>, closed: bool): (acts: seq<Action>)
    ensures OnSide(acts, CloseSide(p))
    ensures forall a :: a in acts ==> a.CancelMany? || a.ClosePosition?
    ensures (exists a :: a in acts && a.ClosePosition?) <==> closed
  {
    if !closed then []
    else
      var acts := (if |openOrders| > 0 then [CancelMany(OrderIds(openOrders))] else []) + [ClosePosition(CloseSide(p))];
      assert acts[|acts| - 1] in acts;
      acts
  }

  lemma InThree<T>(a: seq<T>, b: seq<T>, c: seq<T>)
    ensures forall x :: x in a + b + c <==> x in a || x in b || x in c
  {
  }

  /** `handlePositionManagement`: move the stop on profit, place the initial
      stop and the trailing stop when missing, and force-close on a loss
      beyond `MAX_LOSS_PER_TRADE`. */
  function Manage(p: Position, price: real, openOrders: seq<Obj>, parseFloat: Json -> real): (plan: Plan)
    requires !HasNoPosition(p)
    ensures plan.pnl == Pnl(p, price)
    ensures plan.closed <==> plan.pnl < -MAX_LOSS_PER_TRADE || p.unrealizedProfit < -MAX_LOSS_PER_TRADE
    ensures OnSide(plan.actions, CloseSide(p))
    ensures (exists a :: a in plan.actions && a.ClosePosition?) <==> plan.closed
    ensures (exists a :: a in plan.actions && a.CancelOrder?) <==>
      (plan.pnl > PROFIT_TRIGGER || p.unrealizedProfit > PROFIT_TRIGGER) && StopIsFar(p, openOrders, parseFloat)
  {
    var pnl := Pnl(p, price);
    var closed := pnl < -MAX_LOSS_PER_TRADE || p.unrealizedProfit < -MAX_LOSS_PER_TRADE;
    var move, protect, close := MoveStop(p, pnl, openOrders, parseFloat), Protect(p, openOrders), ForceClose(p, openOrders, closed);
    InThree(move, protect, close);
    Plan(move + protect + close, closed, pnl)
  }

  /** The initial stop of a long lies below its entry. The short's lies above
      its entry by `MAX_LOSS_PER_TRADE` over the quantity before flooring, and
      flooring can take up to 0.1 off, so only `entry - 0.1` is a bound. */
  lemma InitialStopIsOnTheLosingSide(p: Position, price: real, openOrders: seq<Obj>, parseFloat: Json -> real)
    requires !HasNoPosition(p)
    requires FindKind(openOrders, "STOP_MARKET", CloseSide(p)) == |openOrders|
    ensures exists a :: (a in Manage(p, price, openOrders, parseFloat).actions && a.StopLoss? &&
      (p.positionAmt > 0.0 ==> a.stopPrice < p.entryPrice) &&
      (p.positionAmt < 0.0 ==> a.stopPrice > p.entryPrice - 0.1))
  {
    var q := Abs(p.positionAmt);
    var dir := if p.positionAmt > 0.0 then Long else Short;
    var stop := StopLossPrice(p.entryPrice, q, dir, MAX_LOSS_PER_TRADE);
    StopAndActivationMirror(p.entryPrice, q, dir, MAX_LOSS_PER_TRADE);
    var a := StopLoss(CloseSide(p), RoundPrice(stop));
    var plan := Manage(p, price, openOrders, parseFloat);
    var move := MoveStop(p, Pnl(p, price), openOrders, parseFloat);
    assert plan.actions[|move|] == a;
  }

  // ----- the main loop -----

  /** The strategy's module state: the filtered open orders, the previous
      tick's price, and the running totals. */
  class TrendStrategy {
    var openOrders: seq<Obj>
    var lastPrice: Option<real>
    var totalTrades: nat
    var totalProfit: real

    constructor()
      ensures openOrders == [] && lastPrice == None && totalTrades == 0 && totalProfit == 0.0
    {
      openOrders := [];
      lastPrice := None;
      totalTrades := 0;
      totalProfit := 0.0;
    }

    /** The `watchOrder` callback. `orders` is `None` for a non-array, on
        which `orders.find` throws as soon as a type has a truthy pending id. */
    method OnOrders(book: OrderLocks, orders: Option<seq<Obj>>) returns (threw: bool)
      requires book.Valid()
      modifies this`openOrders, book`locks, book`pending, book`timers, book`armed
      ensures book.Valid()
      ensures threw <==> orders.None? && exists k :: k in old(book.pending) && Truthy(old(book.pending)[k])
      ensures threw ==>
        openOrders == old(openOrders) && book.locks == old(book.locks) && book.pending == old(book.pending)
        && book.timers == old(book.timers) && book.armed == old(book.armed)
      ensures !threw ==>
        var r := if orders.Some? then ReleasedTypes(old(book.pending), orders.value) else {};
        book.locks == ReleaseLocks(old(book.locks), r) && book.pending == ReleasePending(old(book.pending), r)
        && book.timers == ReleaseTimers(old(book.timers), r) && book.armed == ReleaseArmed(old(book.armed), r)
        && openOrders == (if orders.Some? then NonMarket(orders.value) else [])
    {
      ghost var locks0, pending0, timers0, armed0 := book.locks, book.pending, book.timers, book.armed;
      ReleaseNothing(locks0, pending0, timers0, armed0);
      var todo := book.pending.Keys;
      ghost var done: set<string> := {};
      ghost var released: set<string> := {};
      while todo != {}
        invariant todo + done == pending0.Keys && todo !! done
        invariant released <= done
        invariant orders.Some? ==> forall k :: k in done ==> (k in released <==> Releases(orders.value, pending0[k]))
        invariant orders.None? ==> released == {} && forall k :: k in done ==> !Truthy(pending0[k])
        invariant book.Valid() && openOrders == old(openOrders)
        invariant book.locks == ReleaseLocks(locks0, released) && book.pending == ReleasePending(pending0, released)
        invariant book.timers == ReleaseTimers(timers0, released) && book.armed == ReleaseArmed(armed0, released)
        decreases todo
      {
        var kind :| kind in todo;
        var pid := book.pending[kind];
        assert pid == pending0[kind];
        if Truthy(pid) {
          if orders.None? {
            threw := true;
            return;
          }
          var i := FindPending(orders.value, pid);
          if i == |orders.value| || (Truthy(Get(orders.value[i], "status")) && Get(orders.value[i], "status") != Str("NEW")) {
            ClearedDropsKind(book.locks, book.timers, book.armed, book.nextTimer, kind);
            ReleaseOneMore(locks0, pending0, timers0, armed0, released, kind);
            book.Unlock(kind);
            released := released + {kind};
          }
        }
        todo := todo - {kind};
        done := done + {kind};
      }
      if orders.Some? {
        assert released == ReleasedTypes(pending0, orders.value);
      }
      openOrders := if orders.Some? then NonMarket(orders.value) else [];
      threw := false;
    }

    /** One pass of the main loop once market data is `ready`. Without data
        or without an SMA nothing happens; flat, the crossover rule runs; in a
        position, the management rule runs, and a forced close counts one
        trade and its profit and skips the `lastPrice` update. */
    method Tick(ready: bool, sma: Option<real>, price: real, position: Position, parseFloat: Json -> real)
      returns (acts: seq<Action>)
      modifies this`lastPrice, this`totalTrades, this`totalProfit
      ensures !ready || sma.None? ==>
        acts == [] && lastPrice == old(lastPrice) && totalTrades == old(totalTrades) && totalProfit == old(totalProfit)
      ensures ready && sma.Some? && HasNoPosition(position) ==>
        acts == Opening(old(lastPrice), sma.value, price, openOrders) && lastPrice == Some(price)
        && totalTrades == old(totalTrades) && totalProfit == old(totalProfit)
      ensures ready && sma.Some? && !HasNoPosition(position) ==>
        var plan := Manage(position, price, openOrders, parseFloat);
        acts == plan.actions
        && (plan.closed ==> lastPrice == old(lastPrice) && totalTrades == old(totalTrades) + 1
                            && totalProfit == old(totalProfit) + plan.pnl)
        && (!plan.closed ==> lastPrice == Some(price) && totalTrades == old(totalTrades) && totalProfit == old(totalProfit))
    {
      if !ready || sma.None? {
        return [];
      }
      if HasNoPosition(position) {
        acts := Opening(lastPrice, sma.value, price, openOrders);
      } else {
        var plan := Manage(position, price, openOrders, parseFloat);
        acts := plan.actions;
        if plan.closed {
          totalTrades := totalTrades + 1;
          totalProfit := totalProfit + plan.pnl;
          return;
        }
      }
      lastPrice := Some(price);
    }
  }
}
