/**
 * The order helpers of utils/order.ts: price and quantity rounding, the
 * per-order-type lock table with its recovery timers, duplicate-order
 * cancellation, and the one protocol every `place*` operation follows.
 *
 * Exchange calls are recorded in `requests`; a failing `createOrder` is a
 * `None` reply. Prices are reals (no IEEE-754 rounding).
 */
module OrderOps {
  import opened Common

  const TRADING_SYMBOL: string := "BTCUSDT"
  const TRADING_AMOUNT: real := 0.001
  const TRAILING_STOP_CALLBACK_RATE: real := 0.2

  // ----- rounding -----

  /** `roundPriceToOneDecimal`: `Math.floor(price * 10) / 10`, the largest
      multiple of 0.1 that is not above `price`. */
  function RoundPrice(price: real): (r: real)
    ensures r <= price < r + 0.1
    ensures (r * 10.0).Floor as real == r * 10.0
  {
    var f := (price * 10.0).Floor;
    assert (f as real).Floor == f;
    f as real / 10.0
  }

  /** No multiple of 0.1 between the rounded price and the price. */
  lemma RoundPriceIsLargest(price: real, n: int)
    requires n as real / 10.0 <= price
    ensures n as real / 10.0 <= RoundPrice(price)
  {
    var f := (price * 10.0).Floor;
    assert n as real <= price * 10.0;
    assert n <= f;
    assert RoundPrice(price) == f as real / 10.0;
  }

  /** `roundQuantityToThreeDecimals`: the largest multiple of 0.001 not above
      `quantity`. */
  function RoundQuantity(quantity: real): (r: real)
    ensures r <= quantity < r + 0.001
    ensures (r * 1000.0).Floor as real == r * 1000.0
  {
    var f := (quantity * 1000.0).Floor;
    assert (f as real).Floor == f;
    f as real / 1000.0
  }

  /** No multiple of 0.001 between the rounded quantity and the quantity. */
  lemma RoundQuantityIsLargest(quantity: real, n: int)
    requires n as real / 1000.0 <= quantity
    ensures n as real / 1000.0 <= RoundQuantity(quantity)
  {
    var f := (quantity * 1000.0).Floor;
    assert n as real <= quantity * 1000.0;
    assert n <= f;
    assert RoundQuantity(quantity) == f as real / 1000.0;
  }

  /** Rounding an already rounded price changes nothing, so the double
      rounding in the `place*` helpers is harmless. */
  lemma RoundPriceIdempotent(price: real)
    ensures RoundPrice(RoundPrice(price)) == RoundPrice(price)
  {
    var r := RoundPrice(price);
    var n := (r * 10.0).Floor;
    assert r == n as real / 10.0;
    assert RoundPrice(r) >= r;
  }

  lemma RoundQuantityIdempotent(quantity: real)
    ensures RoundQuantity(RoundQuantity(quantity)) == RoundQuantity(quantity)
  {
    var r := RoundQuantity(quantity);
    var n := (r * 1000.0).Floor;
    assert r == n as real / 1000.0;
    assert RoundQuantity(r) >= r;
  }

  // ----- exchange requests -----

  /** `CreateOrderParams`; absent optional fields are `None`. */
  datatype OrderParams = OrderParams(
    symbol: string, side: string, orderType: string, quantity: real,
    price: Option<real>, stopPrice: Option<real>, activationPrice: Option<real>,
    callbackRate: Option<real>, timeInForce: Option<string>,
    reduceOnly: Option<string>, closePosition: Option<string>)

  datatype Request = CancelOrders(orderIds: seq<Json>) | CreateOrder(params: OrderParams)

  /** What a `place*` call came to: returned early, placed (with the new
      order's id), or `createOrder` threw and the error was rethrown. */
  datatype Outcome = Skipped | Placed(orderId: Json) | Failed

  // ----- duplicate orders -----

  /** `openOrders.filter(o => o.type === type && o.side === side)` */
  function SameKind(orders: seq<Obj>, kind: string, side: string): (r: seq<Obj>)
    ensures forall o :: o in r <==> o in orders && Get(o, "type") == Str(kind) && Get(o, "side") == Str(side)
    ensures |r| <= |orders|
  {
    if orders == [] then []
    else
      var rest := SameKind(orders[1..], kind, side);
      if Get(orders[0], "type") == Str(kind) && Get(orders[0], "side") == Str(side) then [orders[0]] + rest else rest
  }

  /** `o.updateTime || o.time || 0`, read as a number (non-numbers count 0). */
  function Recency(o: Obj): int
  {
    var v := if Truthy(Get(o, "updateTime")) then Get(o, "updateTime")
             else if Truthy(Get(o, "time")) then Get(o, "time") else Num(0);
    if v.Num? then v.n else 0
  }

  predicate NewestFirst(s: seq<Obj>)
  {
    forall i, j :: 0 <= i < j < |s| ==> Recency(s[i]) >= Recency(s[j])
  }

  /** Inserting `o` ahead of every entry that is not newer keeps equal keys in
      input order, as the stable `Array.prototype.sort` does. */
  function InsertByRecency(o: Obj, s: seq<Obj>): (r: seq<Obj>)
    ensures multiset(r) == multiset(s) + multiset{o}
    ensures |r| == |s| + 1
  {
    if s == [] || Recency(o) >= Recency(s[0]) then [o] + s
    else
      assert s == [s[0]] + s[1..];
      [s[0]] + InsertByRecency(o, s[1..])
  }

  /** The stable newest-first sort of `deduplicateOrders`. */
  function SortByRecency(s: seq<Obj>): (r: seq<Obj>)
    ensures multiset(r) == multiset(s)
    ensures |r| == |s|
  {
    if s == [] then []
    else
      assert s == [s[0]] + s[1..];
      InsertByRecency(s[0], SortByRecency(s[1..]))
  }

  /** No entry of `s` is newer than `top`. */
  predicate NoneNewer(top: int, s: seq<Obj>)
  {
    forall i :: 0 <= i < |s| ==> Recency(s[i]) <= top
  }

  lemma NewestFirstTail(s: seq<Obj>)
    requires NewestFirst(s) && s != []
    ensures NewestFirst(s[1..]) && NoneNewer(Recency(s[0]), s[1..])
  {
    assert forall i :: 0 <= i < |s| - 1 ==> s[1..][i] == s[i + 1];
  }

  lemma NewestFirstCons(x: Obj, r: seq<Obj>)
    requires NewestFirst(r) && NoneNewer(Recency(x), r)
    ensures NewestFirst([x] + r)
  {
    assert forall i :: 1 <= i < |r| + 1 ==> ([x] + r)[i] == r[i - 1];
  }

  lemma {:induction false} InsertStaysBelow(top: int, o: Obj, s: seq<Obj>)
    requires NoneNewer(top, s) && Recency(o) <= top
    ensures NoneNewer(top, InsertByRecency(o, s))
    decreases |s|
  {
    if s != [] && Recency(o) < Recency(s[0]) {
      InsertStaysBelow(top, o, s[1..]);
    }
  }

  lemma {:induction false} InsertKeepsOrder(o: Obj, s: seq<Obj>)
    requires NewestFirst(s)
    ensures NewestFirst(InsertByRecency(o, s))
    ensures InsertByRecency(o, s)[0] == (if s == [] || Recency(o) >= Recency(s[0]) then o else s[0])
    decreases |s|
  {
    if s != [] && Recency(o) < Recency(s[0]) {
      NewestFirstTail(s);
      InsertKeepsOrder(o, s[1..]);
      InsertStaysBelow(Recency(s[0]), o, s[1..]);
      NewestFirstCons(s[0], InsertByRecency(o, s[1..]));
    } else {
      NewestFirstCons(o, s);
    }
  }

  lemma {:induction false} SortIsNewestFirst(s: seq<Obj>)
    ensures NewestFirst(SortByRecency(s))
  {
    if s != [] {
      SortIsNewestFirst(s[1..]);
      InsertKeepsOrder(s[0], SortByRecency(s[1..]));
    }
  }

  /** The first position holding the greatest recency. */
  function FirstNewest(s: seq<Obj>): (i: nat)
    requires s != []
    ensures i < |s|
    ensures forall j :: 0 <= j < |s| ==> Recency(s[j]) <= Recency(s[i])
    ensures forall j :: 0 <= j < i ==> Recency(s[j]) < Recency(s[i])
  {
    if |s| == 1 then 0
    else
      var k := 1 + FirstNewest(s[1..]);
      assert forall j :: 1 <= j < |s| ==> s[j] == s[1..][j - 1];
      if Recency(s[0]) >= Recency(s[k]) then 0 else k
  }

  /** The order the sort puts first is the newest one, the earliest in input
      order among equally new ones. */
  lemma {:induction false} SortKeepsFirstNewest(s: seq<Obj>)
    requires s != []
    ensures SortByRecency(s)[0] == s[FirstNewest(s)]
  {
    if |s| > 1 {
      var rest := s[1..];
      SortKeepsFirstNewest(rest);
      SortIsNewestFirst(rest);
      InsertKeepsOrder(s[0], SortByRecency(rest));
      assert s[1 + FirstNewest(rest)] == rest[FirstNewest(rest)];
    }
  }

  function OrderIds(s: seq<Obj>): (r: seq<Json>)
    ensures |r| == |s| && forall i :: 0 <= i < |s| ==> r[i] == Get(s[i], "orderId")
  {
    if s == [] then [] else [Get(s[0], "orderId")] + OrderIds(s[1..])
  }

  /** The orders `deduplicateOrders` cancels: all same-kind orders but the
      newest, newest first; none when there is at most one. */
  function ToCancel(orders: seq<Obj>, kind: string, side: string): seq<Obj>
  {
    var same := SameKind(orders, kind, side);
    if |same| <= 1 then [] else SortByRecency(same)[1..]
  }

  /** Exactly one same-kind order survives, the newest (earliest on ties):
      the cancelled ones are all the others. */
  lemma DedupKeepsNewest(orders: seq<Obj>, kind: string, side: string)
    requires |SameKind(orders, kind, side)| > 1
    ensures var same := SameKind(orders, kind, side);
      |ToCancel(orders, kind, side)| == |same| - 1
      && multiset(ToCancel(orders, kind, side)) + multiset{same[FirstNewest(same)]} == multiset(same)
      && forall o :: o in ToCancel(orders, kind, side) ==> Recency(o) <= Recency(same[FirstNewest(same)])
  {
    var same := SameKind(orders, kind, side);
    var sorted := SortByRecency(same);
    SortKeepsFirstNewest(same);
    SortIsNewestFirst(same);
    HeadAndRest(sorted);
  }

  /** A newest-first list is its newest entry followed by the others. */
  lemma HeadAndRest(t: seq<Obj>)
    requires NewestFirst(t) && t != []
    ensures multiset(t[1..]) + multiset{t[0]} == multiset(t)
    ensures forall o :: o in t[1..] ==> Recency(o) <= Recency(t[0])
  {
    assert t == [t[0]] + t[1..];
    NewestFirstTail(t);
    forall o | o in t[1..] ensures Recency(o) <= Recency(t[0]) {
      var k :| 0 <= k < |t[1..]| && t[1..][k] == o;
    }
  }

  /** The requests `deduplicateOrders` sends. */
  function DedupRequests(orders: seq<Obj>, kind: string, side: string): seq<Request>
  {
    var cancel := ToCancel(orders, kind, side);
    if |cancel| > 0 then [CancelOrders(OrderIds(cancel))] else []
  }

  // ----- parameters of each order kind -----

  function LimitParams(side: string, price: real, amount: real, reduceOnly: bool): (p: OrderParams)
    ensures p.orderType == "LIMIT" && p.timeInForce == Some("GTX")
    ensures p.price.Some? && p.price.value <= price < p.price.value + 0.1
    ensures p.quantity <= amount < p.quantity + 0.001
    ensures p.reduceOnly == if reduceOnly then Some("true") else None
  {
    RoundPriceIdempotent(price);
    OrderParams(TRADING_SYMBOL, side, "LIMIT", RoundQuantity(amount), Some(RoundPrice(RoundPrice(price))),
                None, None, None, Some("GTX"), if reduceOnly then Some("true") else None, None)
  }

  function StopLossParams(side: string, stopPrice: real): (p: OrderParams)
    ensures p.orderType == "STOP_MARKET" && p.timeInForce == Some("GTC") && p.closePosition == Some("true")
    ensures p.stopPrice.Some? && p.stopPrice.value <= stopPrice < p.stopPrice.value + 0.1
    ensures p.quantity == RoundQuantity(TRADING_AMOUNT) && p.reduceOnly == None
  {
    RoundPriceIdempotent(stopPrice);
    OrderParams(TRADING_SYMBOL, side, "STOP_MARKET", RoundQuantity(TRADING_AMOUNT), None,
                Some(RoundPrice(RoundPrice(stopPrice))), None, None, Some("GTC"), None, Some("true"))
  }

  function CloseParams(side: string): (p: OrderParams)
    ensures p.orderType == "MARKET" && p.reduceOnly == Some("true") && p.price == None
    ensures p.quantity == RoundQuantity(TRADING_AMOUNT)
  {
    OrderParams(TRADING_SYMBOL, side, "MARKET", RoundQuantity(TRADING_AMOUNT), None, None, None, None, None, Some("true"), None)
  }

  function TrailingParams(side: string, activationPrice: real, quantity: real): (p: OrderParams)
    ensures p.orderType == "TRAILING_STOP_MARKET" && p.reduceOnly == Some("true") && p.timeInForce == Some("GTC")
    ensures p.activationPrice.Some? && p.activationPrice.value <= activationPrice < p.activationPrice.value + 0.1
    ensures p.callbackRate == Some(TRAILING_STOP_CALLBACK_RATE)
    ensures p.quantity <= quantity < p.quantity + 0.001
  {
    RoundPriceIdempotent(activationPrice);
    OrderParams(TRADING_SYMBOL, side, "TRAILING_STOP_MARKET", RoundQuantity(quantity), None, None,
                Some(RoundPrice(RoundPrice(activationPrice))), Some(TRAILING_STOP_CALLBACK_RATE), Some("GTC"), Some("true"), None)
  }

  function MarketParams(side: string, amount: real, reduceOnly: bool): (p: OrderParams)
    ensures p.orderType == "MARKET" && p.price == None && p.timeInForce == None
    ensures p.quantity <= amount < p.quantity + 0.001
    ensures p.reduceOnly == if reduceOnly then Some("true") else None
  {
    OrderParams(TRADING_SYMBOL, side, "MARKET", RoundQuantity(amount), None, None, None, None, None,
                if reduceOnly then Some("true") else None, None)
  }

  // ----- stop-loss validation -----

  /** The side check of `placeStopLossOrder`, on the unrounded stop price. */
  predicate StopLossAllowed(side: string, stopPrice: real, lastPrice: real)
  {
    !(side == "SELL" && stopPrice >= lastPrice) && !(side == "BUY" && stopPrice <= lastPrice)
  }

  /** A SELL stop that passes the check still lies below the last price once
      floored; a BUY stop that passes lies above it only before flooring. */
  lemma StopLossAfterRounding(side: string, stopPrice: real, lastPrice: real)
    requires StopLossAllowed(side, stopPrice, lastPrice)
    ensures side == "SELL" ==> StopLossParams(side, stopPrice).stopPrice.value < lastPrice
    ensures side == "BUY" ==> StopLossParams(side, stopPrice).stopPrice.value > lastPrice - 0.1
  {
  }

  /** Flooring can move an accepted BUY stop to or below the last price:
      last 100.05, stop 100.06 is accepted and sent as 100.0. */
  lemma BuyStopCanCrossAfterRounding()
    ensures StopLossAllowed("BUY", 100.06, 100.05)
    ensures StopLossParams("BUY", 100.06).stopPrice == Some(100.0)
    ensures StopLossParams("BUY", 100.06).stopPrice.value <= 100.05
  {
    assert (100.06 * 10.0).Floor == 1000;
    assert (100.0 * 10.0).Floor == 1000;
  }

  // ----- stop and activation prices -----

  datatype Direction = Long | Short

  function Abs(x: real): real { if x < 0.0 then -x else x }

  /** `calculateStopLossPrice`: the price at which the position loses `maxLoss`. */
  function StopLossPrice(entryPrice: real, quantity: real, side: Direction, maxLoss: real): (r: real)
    requires quantity != 0.0
    ensures side == Long && quantity > 0.0 ==> (r - entryPrice) * quantity == -maxLoss
    ensures side == Short ==> (entryPrice - r) * Abs(quantity) == -maxLoss
  {
    if side == Long then entryPrice - maxLoss / quantity else entryPrice + maxLoss / Abs(quantity)
  }

  /** `calculateTrailingActivationPrice`: the price at which the position
      gains `profitActivation`. */
  function TrailingActivationPrice(entryPrice: real, quantity: real, side: Direction, profitActivation: real): (r: real)
    requires quantity != 0.0
    ensures side == Long && quantity > 0.0 ==> (r - entryPrice) * quantity == profitActivation
    ensures side == Short ==> (entryPrice - r) * Abs(quantity) == profitActivation
  {
    if side == Long then entryPrice + profitActivation / quantity else entryPrice - profitActivation / Abs(quantity)
  }

  /** With a positive quantity and amount, the stop lies on the losing side of
      the entry and the activation price on the winning side; with the same
      amount they are mirror images about the entry. */
  lemma StopAndActivationMirror(entryPrice: real, quantity: real, side: Direction, amount: real)
    requires quantity > 0.0 && amount > 0.0
    ensures side == Long ==> StopLossPrice(entryPrice, quantity, side, amount) < entryPrice < TrailingActivationPrice(entryPrice, quantity, side, amount)
    ensures side == Short ==> TrailingActivationPrice(entryPrice, quantity, side, amount) < entryPrice < StopLossPrice(entryPrice, quantity, side, amount)
    ensures StopLossPrice(entryPrice, quantity, side, amount) + TrailingActivationPrice(entryPrice, quantity, side, amount) == 2.0 * entryPrice
  {
  }

  // ----- the lock table -----

  /** The bookkeeping behind `Valid`: every armed handle is its type's
      current timer, handles are never reused, and a type is locked exactly
      when its current timer is armed. */
  ghost predicate TimersConsistent(locks: map<string, bool>, timers: map<string, Option<nat>>, armed: map<nat, string>, nextTimer: nat)
  {
    && (forall h :: h in armed ==> h < nextTimer && armed[h] in timers && timers[armed[h]] == Some(h))
    && (forall k :: k in timers && timers[k].Some? ==> timers[k].value < nextTimer)
    && (forall k :: k in timers && timers[k].Some? && timers[k].value in armed ==> armed[timers[k].value] == k)
    && (forall k :: (k in locks && locks[k]) <==> k in timers && timers[k].Some? && timers[k].value in armed)
  }

  /** The armed timers once `kind`'s current timer is cleared. */
  function Cleared(timers: map<string, Option<nat>>, armed: map<nat, string>, kind: string): map<nat, string>
  {
    if kind in timers && timers[kind].Some? then armed - {timers[kind].value} else armed
  }

  /** In a consistent table, clearing `kind`'s current timer drops exactly
      the armed timers that would release `kind`. */
  lemma ClearedDropsKind(locks: map<string, bool>, timers: map<string, Option<nat>>, armed: map<nat, string>,
                         nextTimer: nat, kind: string)
    requires TimersConsistent(locks, timers, armed, nextTimer)
    ensures Cleared(timers, armed, kind) == map h | h in armed && armed[h] != kind :: armed[h]
  {
    var c := Cleared(timers, armed, kind);
    var f := map h | h in armed && armed[h] != kind :: armed[h];
    forall h | h in armed
      ensures h in c <==> h in f
    {
      if armed[h] == kind {
        assert timers[kind] == Some(h);
      }
    }
    assert c.Keys == f.Keys;
  }

  /** Locking `kind` under a fresh timer handle `n` keeps the tables consistent. */
  lemma LockKeepsConsistent(locks: map<string, bool>, timers: map<string, Option<nat>>, armed: map<nat, string>,
                            n: nat, kind: string)
    requires TimersConsistent(locks, timers, armed, n)
    ensures TimersConsistent(locks[kind := true], timers[kind := Some(n)], Cleared(timers, armed, kind)[n := kind], n + 1)
  {
    ClearedDropsKind(locks, timers, armed, n, kind);
  }

  /** Unlocking `kind` and clearing its timer keeps the tables consistent. */
  lemma UnlockKeepsConsistent(locks: map<string, bool>, timers: map<string, Option<nat>>, armed: map<nat, string>,
                              n: nat, kind: string)
    requires TimersConsistent(locks, timers, armed, n)
    ensures TimersConsistent(locks[kind := false], timers[kind := None], Cleared(timers, armed, kind), n)
  {
    ClearedDropsKind(locks, timers, armed, n, kind);
  }

  /** A timer firing releases its type and disarms itself, keeping the tables consistent. */
  lemma FireKeepsConsistent(locks: map<string, bool>, timers: map<string, Option<nat>>, armed: map<nat, string>,
                            n: nat, h: nat)
    requires TimersConsistent(locks, timers, armed, n) && h in armed
    ensures TimersConsistent(locks[armed[h] := false], timers, armed - {h}, n)
  {
  }

  /** A second update of the same key overrides the first. */
  lemma UpdateTwice<K, V>(m: map<K, V>, k: K, a: V, b: V)
    ensures m[k := a][k := b] == m[k := b]
  {
  }

  /** Arming a fresh handle and clearing it again leaves the armed timers as
      they were. */
  lemma ArmThenClear(c: map<nat, string>, h: nat, kind: string)
    requires h !in c
    ensures Cleared(map[kind := Some(h)], c[h := kind], kind) == c
  {
    assert c[h := kind] - {h} == c;
  }

  /** The three per-type tables the trading loop shares: lock flags, pending
      order ids (`null` once released), and the current recovery timer. */
  class OrderLocks {
    var locks: map<string, bool>
    var pending: map<string, Json>
    var timers: map<string, Option<nat>>
    /** Scheduled recovery timers, each with the type it releases. */
    var armed: map<nat, string>
    var nextTimer: nat
    var requests: seq<Request>

    /** `isOrderTypeLocked`: `!!orderTypeLocks[type]` */
    function IsLocked(kind: string): bool
      reads this
    {
      kind in locks && locks[kind]
    }

    /** A type is locked exactly when its current recovery timer is armed, so
        every lock is released by a timer if nothing releases it sooner. */
    ghost predicate Valid()
      reads this
    {
      TimersConsistent(locks, timers, armed, nextTimer)
    }

    constructor()
      ensures Valid()
      ensures locks == map[] && pending == map[] && timers == map[] && armed == map[] && requests == []
      ensures forall k :: !IsLocked(k)
    {
      locks := map[];
      pending := map[];
      timers := map[];
      armed := map[];
      nextTimer := 0;
      requests := [];
    }

    /** `lockOrderType`: lock the type and replace its recovery timer. */
    method Lock(kind: string)
      requires Valid()
      modifies this`locks, this`timers, this`armed, this`nextTimer
      ensures Valid()
      ensures locks == old(locks)[kind := true]
      ensures timers == old(timers)[kind := Some(old(nextTimer))]
      ensures armed == Cleared(old(timers), old(armed), kind)[old(nextTimer) := kind]
      ensures nextTimer == old(nextTimer) + 1
    {
      LockKeepsConsistent(locks, timers, armed, nextTimer, kind);
      armed := Cleared(timers, armed, kind);
      locks := locks[kind := true];
      timers := timers[kind := Some(nextTimer)];
      armed := armed[nextTimer := kind];
      nextTimer := nextTimer + 1;
    }

    /** `unlockOrderType`: release the type, forget its pending id, and clear
        its timer. */
    method Unlock(kind: string)
      requires Valid()
      modifies this`locks, this`pending, this`timers, this`armed
      ensures Valid()
      ensures locks == old(locks)[kind := false]
      ensures pending == old(pending)[kind := Null]
      ensures timers == old(timers)[kind := None]
      ensures armed == Cleared(old(timers), old(armed), kind)
    {
      UnlockKeepsConsistent(locks, timers, armed, nextTimer, kind);
      armed := Cleared(timers, armed, kind);
      locks := locks[kind := false];
      pending := pending[kind := Null];
      timers := timers[kind := None];
    }

    /** A recovery timer fires: a forced release of its type. */
    method FireTimer(h: nat)
      requires Valid()
      modifies this`locks, this`pending, this`armed
      ensures Valid()
      ensures h in old(armed) ==>
        (locks == old(locks)[old(armed)[h] := false] && pending == old(pending)[old(armed)[h] := Null]
         && armed == old(armed) - {h})
      ensures h !in old(armed) ==> locks == old(locks) && pending == old(pending) && armed == old(armed)
    {
      if h in armed {
        FireKeepsConsistent(locks, timers, armed, nextTimer, h);
        var kind := armed[h];
        locks := locks[kind := false];
        pending := pending[kind := Null];
        armed := armed - {h};
      }
    }

    /** `deduplicateOrders`: with two or more same-kind orders, lock, cancel
        all but the newest, and unlock whatever the cancel did. */
    method Deduplicate(orders: seq<Obj>, kind: string, side: string)
      requires Valid()
      modifies this`locks, this`pending, this`timers, this`armed, this`nextTimer, this`requests
      ensures Valid()
      ensures requests == old(requests) + DedupRequests(orders, kind, side)
      ensures |ToCancel(orders, kind, side)| == 0 ==>
        (locks == old(locks) && pending == old(pending) && timers == old(timers) && armed == old(armed))
      ensures |ToCancel(orders, kind, side)| > 0 ==>
        (locks == old(locks)[kind := false] && pending == old(pending)[kind := Null]
         && timers == old(timers)[kind := None] && armed == Cleared(old(timers), old(armed), kind))
    {
      var cancel := ToCancel(orders, kind, side);
      if |cancel| > 0 {
        CancelUnder(kind, OrderIds(cancel));
      }
    }

    /** The locked cancel of `deduplicateOrders`: lock, request the cancel of
        `ids`, unlock. */
    method CancelUnder(kind: string, ids: seq<Json>)
      requires Valid()
      modifies this`locks, this`pending, this`timers, this`armed, this`nextTimer, this`requests
      ensures Valid()
      ensures requests == old(requests) + [CancelOrders(ids)]
      ensures locks == old(locks)[kind := false] && pending == old(pending)[kind := Null]
      ensures timers == old(timers)[kind := None] && armed == Cleared(old(timers), old(armed), kind)
    {
      ghost var cleared := Cleared(timers, armed, kind);
      ArmThenClear(cleared, nextTimer, kind);
      UpdateTwice(locks, kind, true, false);
      UpdateTwice(timers, kind, Some(nextTimer), None);
      Lock(kind);
      requests := requests + [CancelOrders(ids)];
      Unlock(kind);
    }

    /** The protocol shared by every `place*` operation: a locked type returns
        at once; otherwise deduplicate, lock, submit, and on success record
        the new order as the type's pending order (the type stays locked); on
        failure unlock and rethrow. `reply` is the new order's id, or `None`
        when `createOrder` throws. */
    method Submit(orders: seq<Obj>, kind: string, side: string, params: OrderParams, reply: Option<Json>)
      returns (outcome: Outcome)
      requires Valid()
      modifies this`locks, this`pending, this`timers, this`armed, this`nextTimer, this`requests
      ensures Valid()
      ensures old(IsLocked(kind)) ==>
        (outcome == Skipped && locks == old(locks) && pending == old(pending) && requests == old(requests)
         && timers == old(timers) && armed == old(armed) && nextTimer == old(nextTimer))
      ensures !old(IsLocked(kind)) ==>
        requests == old(requests) + DedupRequests(orders, kind, side) + [CreateOrder(params)]
      ensures !old(IsLocked(kind)) && reply.Some? ==>
        (outcome == Placed(reply.value) && locks == old(locks)[kind := true]
         && pending == old(pending)[kind := Str(JsString(reply.value))])
      ensures !old(IsLocked(kind)) && reply.None? ==>
        (outcome == Failed && locks == old(locks)[kind := false] && pending == old(pending)[kind := Null])
    {
      if IsLocked(kind) {
        return Skipped;
      }
      ghost var locks0, pending0 := locks, pending;
      Deduplicate(orders, kind, side);
      outcome := PlaceUnder(kind, params, reply);
      if |ToCancel(orders, kind, side)| > 0 {
        UpdateTwice(locks0, kind, false, reply.Some?);
        UpdateTwice(pending0, kind, Null, if reply.Some? then Str(JsString(reply.value)) else Null);
      }
    }

    /** Lock the type and send the order; keep the lock and the new id on
        success, unlock on failure. */
    method PlaceUnder(kind: string, params: OrderParams, reply: Option<Json>) returns (outcome: Outcome)
      requires Valid()
      modifies this`locks, this`pending, this`timers, this`armed, this`nextTimer, this`requests
      ensures Valid()
      ensures requests == old(requests) + [CreateOrder(params)]
      ensures reply.Some? ==>
        (outcome == Placed(reply.value) && locks == old(locks)[kind := true]
         && pending == old(pending)[kind := Str(JsString(reply.value))])
      ensures reply.None? ==>
        (outcome == Failed && locks == old(locks)[kind := false] && pending == old(pending)[kind := Null])
    {
      ghost var locks0 := locks;
      Lock(kind);
      requests := requests + [CreateOrder(params)];
      if reply.Some? {
        pending := pending[kind := Str(JsString(reply.value))];
        outcome := Placed(reply.value);
      } else {
        Unlock(kind);
        UpdateTwice(locks0, kind, true, false);
        outcome := Failed;
      }
    }

    /** `placeLimitOrder`: a post-only (GTX) LIMIT order. */
    method PlaceLimitOrder(orders: seq<Obj>, side: string, price: real, amount: real, reduceOnly: bool, reply: Option<Json>)
      returns (outcome: Outcome)
      requires Valid()
      modifies this`locks, this`pending, this`timers, this`armed, this`nextTimer, this`requests
      ensures Valid()
      ensures old(IsLocked("LIMIT")) ==>
        (outcome == Skipped && requests == old(requests) && locks == old(locks) && pending == old(pending)
         && timers == old(timers) && armed == old(armed) && nextTimer == old(nextTimer))
      ensures !old(IsLocked("LIMIT")) ==>
        requests == old(requests) + DedupRequests(orders, "LIMIT", side) + [CreateOrder(LimitParams(side, price, amount, reduceOnly))]
      ensures !old(IsLocked("LIMIT")) && reply.Some? ==>
        (outcome == Placed(reply.value) && locks == old(locks)["LIMIT" := true]
         && pending == old(pending)["LIMIT" := Str(JsString(reply.value))])
      ensures !old(IsLocked("LIMIT")) && reply.None? ==>
        (outcome == Failed && locks == old(locks)["LIMIT" := false] && pending == old(pending)["LIMIT" := Null])
    {
      outcome := Submit(orders, "LIMIT", side, LimitParams(side, price, amount, reduceOnly), reply);
    }

    /** `placeStopLossOrder`: a STOP_MARKET closing the position. Besides a
        locked type, a missing ticker (`lastPrice` is `None`) and a stop on the
        wrong side of the last price return without any request. */
    method PlaceStopLossOrder(orders: seq<Obj>, lastPrice: Option<real>, side: string, stopPrice: real, reply: Option<Json>)
      returns (outcome: Outcome)
      requires Valid()
      modifies this`locks, this`pending, this`timers, this`armed, this`nextTimer, this`requests
      ensures Valid()
      ensures old(IsLocked("STOP_MARKET")) || lastPrice.None? || !StopLossAllowed(side, stopPrice, lastPrice.value) ==>
        (outcome == Skipped && requests == old(requests) && locks == old(locks) && pending == old(pending)
         && timers == old(timers) && armed == old(armed) && nextTimer == old(nextTimer))
      ensures !old(IsLocked("STOP_MARKET")) && lastPrice.Some? && StopLossAllowed(side, stopPrice, lastPrice.value) ==>
        requests == old(requests) + DedupRequests(orders, "STOP_MARKET", side) + [CreateOrder(StopLossParams(side, stopPrice))]
      ensures !old(IsLocked("STOP_MARKET")) && lastPrice.Some? && StopLossAllowed(side, stopPrice, lastPrice.value) && reply.Some? ==>
        (outcome == Placed(reply.value) && locks == old(locks)["STOP_MARKET" := true]
         && pending == old(pending)["STOP_MARKET" := Str(JsString(reply.value))])
      ensures !old(IsLocked("STOP_MARKET")) && lastPrice.Some? && StopLossAllowed(side, stopPrice, lastPrice.value) && reply.None? ==>
        (outcome == Failed && locks == old(locks)["STOP_MARKET" := false] && pending == old(pending)["STOP_MARKET" := Null])
    {
      if IsLocked("STOP_MARKET") || lastPrice.None? || !StopLossAllowed(side, stopPrice, lastPrice.value) {
        return Skipped;
      }
      outcome := Submit(orders, "STOP_MARKET", side, StopLossParams(side, stopPrice), reply);
    }

    /** `closePositionMarket`: a reduce-only MARKET order for the configured amount. */
    method ClosePositionMarket(orders: seq<Obj>, side: string, reply: Option<Json>) returns (outcome: Outcome)
      requires Valid()
      modifies this`locks, this`pending, this`timers, this`armed, this`nextTimer, this`requests
      ensures Valid()
      ensures old(IsLocked("MARKET")) ==>
        (outcome == Skipped && requests == old(requests) && locks == old(locks) && pending == old(pending)
         && timers == old(timers) && armed == old(armed) && nextTimer == old(nextTimer))
      ensures !old(IsLocked("MARKET")) ==>
        requests == old(requests) + DedupRequests(orders, "MARKET", side) + [CreateOrder(CloseParams(side))]
      ensures !old(IsLocked("MARKET")) && reply.Some? ==>
        (outcome == Placed(reply.value) && locks == old(locks)["MARKET" := true]
         && pending == old(pending)["MARKET" := Str(JsString(reply.value))])
      ensures !old(IsLocked("MARKET")) && reply.None? ==>
        (outcome == Failed && locks == old(locks)["MARKET" := false] && pending == old(pending)["MARKET" := Null])
    {
      outcome := Submit(orders, "MARKET", side, CloseParams(side), reply);
    }

    /** `placeTrailingStopOrder`: a reduce-only TRAILING_STOP_MARKET. */
    method PlaceTrailingStopOrder(orders: seq<Obj>, side: string, activationPrice: real, quantity: real, reply: Option<Json>)
      returns (outcome: Outcome)
      requires Valid()
      modifies this`locks, this`pending, this`timers, this`armed, this`nextTimer, this`requests
      ensures Valid()
      ensures old(IsLocked("TRAILING_STOP_MARKET")) ==>
        (outcome == Skipped && requests == old(requests) && locks == old(locks) && pending == old(pending)
         && timers == old(timers) && armed == old(armed) && nextTimer == old(nextTimer))
      ensures !old(IsLocked("TRAILING_STOP_MARKET")) ==>
        requests == old(requests) + DedupRequests(orders, "TRAILING_STOP_MARKET", side)
          + [CreateOrder(TrailingParams(side, activationPrice, quantity))]
      ensures !old(IsLocked("TRAILING_STOP_MARKET")) && reply.Some? ==>
        (outcome == Placed(reply.value) && locks == old(locks)["TRAILING_STOP_MARKET" := true]
         && pending == old(pending)["TRAILING_STOP_MARKET" := Str(JsString(reply.value))])
      ensures !old(IsLocked("TRAILING_STOP_MARKET")) && reply.None? ==>
        (outcome == Failed && locks == old(locks)["TRAILING_STOP_MARKET" := false] && pending == old(pending)["TRAILING_STOP_MARKET" := Null])
    {
      outcome := Submit(orders, "TRAILING_STOP_MARKET", side, TrailingParams(side, activationPrice, quantity), reply);
    }

    /** `placeMarketOrder` */
    method PlaceMarketOrder(orders: seq<Obj>, side: string, amount: real, reduceOnly: bool, reply: Option<Json>)
      returns (outcome: Outcome)
      requires Valid()
      modifies this`locks, this`pending, this`timers, this`armed, this`nextTimer, this`requests
      ensures Valid()
      ensures old(IsLocked("MARKET")) ==>
        (outcome == Skipped && requests == old(requests) && locks == old(locks) && pending == old(pending)
         && timers == old(timers) && armed == old(armed) && nextTimer == old(nextTimer))
      ensures !old(IsLocked("MARKET")) ==>
        requests == old(requests) + DedupRequests(orders, "MARKET", side) + [CreateOrder(MarketParams(side, amount, reduceOnly))]
      ensures !old(IsLocked("MARKET")) && reply.Some? ==>
        (outcome == Placed(reply.value) && locks == old(locks)["MARKET" := true]
         && pending == old(pending)["MARKET" := Str(JsString(reply.value))])
      ensures !old(IsLocked("MARKET")) && reply.None? ==>
        (outcome == Failed && locks == old(locks)["MARKET" := false] && pending == old(pending)["MARKET" := Null])
    {
      outcome := Submit(orders, "MARKET", side, MarketParams(side, amount, reduceOnly), reply);
    }
  }
}
