/**
 * The market maker of maker.ts: the queue of placed orders whose status a
 * watcher polls, the flat-position test, the closing side and price, which
 * open orders are cancelled while a position is held, and the check that
 * no reduce-only close order is already waiting.
 *
 * Exchange replies are parameters: `None` where the call throws.
 */
module Maker {
  import opened Common

  const FLAT_EPSILON: real := 0.00001

  /** `{ orderId, lastStatus? }`; `lastStatus` is `Undefined` until the
      watcher first sees the order. */
  datatype PendingEntry = PendingEntry(orderId: Json, lastStatus: Json)

  /** `["FILLED", "CANCELED", "REJECTED", "EXPIRED"].includes(status)` */
  predicate IsFinal(status: Json)
  {
    status == Str("FILLED") || status == Str("CANCELED") || status == Str("REJECTED") || status == Str("EXPIRED")
  }

  /** The status in a truthy fetch reply; `None` when the fetch threw or
      returned a falsy value, so the entry is left alone. */
  function FetchedStatus(reply: Option<Json>): (s: Option<Json>)
    ensures s.Some? <==> reply.Some? && Truthy(reply.value)
  {
    if reply.Some? && Truthy(reply.value) then Some(Get(PropsOf(reply.value).value, "status")) else None
  }

  /** What one watcher step does to one entry: a failed fetch keeps it; a
      fetched final status removes it; any other fetched status becomes its
      `lastStatus`. */
  function StepEntry(e: PendingEntry, reply: Option<Json>): (out: seq<PendingEntry>)
    ensures |out| <= 1
    ensures out == [] <==> FetchedStatus(reply).Some? && IsFinal(FetchedStatus(reply).value)
    ensures FetchedStatus(reply).None? ==> out == [e]
    ensures FetchedStatus(reply).Some? && out != [] ==>
      out[0].orderId == e.orderId && out[0].lastStatus == FetchedStatus(reply).value
  {
    var s := FetchedStatus(reply);
    if s.None? then [e]
    else
      var updated := if s.value != e.lastStatus then e.(lastStatus := s.value) else e;
      if IsFinal(s.value) then [] else [updated]
  }

  /** One pass of the watcher over the queue, entry `i` with fetch reply
      `replies[i]`. */
  function Pass(entries: seq<PendingEntry>, replies: seq<Option<Json>>): (r: seq<PendingEntry>)
    requires |replies| == |entries|
    ensures |r| <= |entries|
  {
    if entries == [] then [] else StepEntry(entries[0], replies[0]) + Pass(entries[1..], replies[1..])
  }

  /** The order ids of a queue. */
  ghost function QueuedIds(entries: seq<PendingEntry>): set<Json>
  {
    set e | e in entries :: e.orderId
  }

  /** A pass never invents an order: every entry it keeps was queued. */
  lemma {:induction false} PassKeepsOrderIds(entries: seq<PendingEntry>, replies: seq<Option<Json>>)
    requires |replies| == |entries|
    ensures QueuedIds(Pass(entries, replies)) <= QueuedIds(entries)
  {
    if entries != [] {
      PassKeepsOrderIds(entries[1..], replies[1..]);
      var step, rest := StepEntry(entries[0], replies[0]), Pass(entries[1..], replies[1..]);
      assert Pass(entries, replies) == step + rest;
      forall id | id in QueuedIds(step + rest)
        ensures id in QueuedIds(entries)
      {
        var e: PendingEntry :| e in step + rest && e.orderId == id;
        if e in step {
          assert entries[0] in entries;
        } else {
          assert id in QueuedIds(rest);
          var d: PendingEntry :| d in entries[1..] && d.orderId == id;
          assert d in entries;
        }
      }
    }
  }

  /** The pass works entry by entry and keeps the queue's order. */
  lemma {:induction false} PassAppend(a: seq<PendingEntry>, ra: seq<Option<Json>>, b: seq<PendingEntry>, rb: seq<Option<Json>>)
    requires |ra| == |a| && |rb| == |b|
    ensures Pass(a + b, ra + rb) == Pass(a, ra) + Pass(b, rb)
    decreases |a|
  {
    if a == [] {
      assert a + b == b && ra + rb == rb;
    } else {
      assert (a + b)[1..] == a[1..] + b && (ra + rb)[1..] == ra[1..] + rb;
      PassAppend(a[1..], ra[1..], b, rb);
    }
  }

  /** How many entries a pass removes. */
  function Finished(replies: seq<Option<Json>>): nat
  {
    if replies == [] then 0
    else (if FetchedStatus(replies[0]).Some? && IsFinal(FetchedStatus(replies[0]).value) then 1 else 0)
         + Finished(replies[1..])
  }

  /** A pass removes exactly the entries fetched with a final status. */
  lemma {:induction false} PassRemovesFinished(entries: seq<PendingEntry>, replies: seq<Option<Json>>)
    requires |replies| == |entries|
    ensures |Pass(entries, replies)| == |entries| - Finished(replies)
    decreases |entries|
  {
    if entries != [] {
      PassRemovesFinished(entries[1..], replies[1..]);
    }
  }

  /** A pass in which every fetch fails changes nothing. */
  lemma {:induction false} FailedPassKeepsQueue(entries: seq<PendingEntry>, replies: seq<Option<Json>>)
    requires |replies| == |entries|
    requires forall i :: 0 <= i < |replies| ==> replies[i].None?
    ensures Pass(entries, replies) == entries
    decreases |entries|
  {
    if entries != [] {
      FailedPassKeepsQueue(entries[1..], replies[1..]);
      assert entries == [entries[0]] + entries[1..];
    }
  }

  /** `order && order.orderId`: the id of a placed order, if it has one. */
  function PlacedId(reply: Option<Json>): (id: Option<Json>)
    ensures id.Some? ==> reply.Some? && Truthy(reply.value) && Truthy(id.value)
    ensures id.Some? ==> id.value == Get(PropsOf(reply.value).value, "orderId")
  {
    if reply.Some? && Truthy(reply.value) && Truthy(Get(PropsOf(reply.value).value, "orderId")) then
      Some(Get(PropsOf(reply.value).value, "orderId"))
    else None
  }

  /** The queue the watcher polls. */
  class PendingQueue {
    var pendingOrders: seq<PendingEntry>

    constructor()
      ensures pendingOrders == []
    {
      pendingOrders := [];
    }

    /** `placeOrder`: an order with an id is queued and returned; a reply
        without one, or a thrown call (`None`), returns `null` and queues
        nothing. */
    method PlaceOrder(reply: Option<Json>) returns (result: Json)
      modifies this`pendingOrders
      ensures PlacedId(reply).Some? ==>
        result == reply.value && pendingOrders == old(pendingOrders) + [PendingEntry(PlacedId(reply).value, Undefined)]
      ensures PlacedId(reply).None? ==> result == Null && pendingOrders == old(pendingOrders)
    {
      if reply.Some? && Truthy(reply.value) {
        var order := PropsOf(reply.value).value;
        if Truthy(Get(order, "orderId")) {
          pendingOrders := pendingOrders + [PendingEntry(Get(order, "orderId"), Undefined)];
          return reply.value;
        }
      }
      return Null;
    }

    /** One pass of `orderStatusWatcher`'s loop, from the last entry down to
        the first, splicing finished entries out as it goes. */
    method WatchPass(replies: seq<Option<Json>>)
      requires |replies| == |pendingOrders|
      modifies this`pendingOrders
      ensures pendingOrders == Pass(old(pendingOrders), replies)
    {
      ghost var entries := pendingOrders;
      var i := |pendingOrders|;
      assert entries[i..] == [];
      while i > 0
        invariant 0 <= i <= |entries|
        invariant pendingOrders == entries[..i] + Pass(entries[i..], replies[i..])
        decreases i
      {
        StepBack(entries, replies, i, pendingOrders);
        UpdateAt(i - 1, replies[i - 1]);
        i := i - 1;
      }
      assert entries[..0] == [];
    }

    /** The body of the watcher loop for entry `i`. */
    method UpdateAt(i: nat, reply: Option<Json>)
      requires i < |pendingOrders|
      modifies this`pendingOrders
      ensures pendingOrders == old(pendingOrders[..i]) + StepEntry(old(pendingOrders[i]), reply) + old(pendingOrders[i + 1..])
    {
      var s := FetchedStatus(reply);
      if s.Some? {
        if s.value != pendingOrders[i].lastStatus {
          pendingOrders := pendingOrders[i := pendingOrders[i].(lastStatus := s.value)];
        }
        if IsFinal(s.value) {
          pendingOrders := pendingOrders[..i] + pendingOrders[i + 1..];
        }
      }
    }
  }

  lemma SliceParts<T>(a: seq<T>, x: T, b: seq<T>)
    ensures (a + [x] + b)[..|a|] == a && (a + [x] + b)[|a|] == x && (a + [x] + b)[|a| + 1..] == b
  {
  }

  /** Stepping entry `i - 1` of a queue whose tail from `i` has been passed
      leaves a queue whose tail from `i - 1` has been passed. */
  lemma StepBack(entries: seq<PendingEntry>, replies: seq<Option<Json>>, i: nat, q: seq<PendingEntry>)
    requires |replies| == |entries| && 0 < i <= |entries|
    requires q == entries[..i] + Pass(entries[i..], replies[i..])
    ensures i - 1 < |q| && q[i - 1] == entries[i - 1]
    ensures q[..i - 1] + StepEntry(q[i - 1], replies[i - 1]) + q[i..]
         == entries[..i - 1] + Pass(entries[i - 1..], replies[i - 1..])
  {
    var prefix, rest := entries[..i - 1], Pass(entries[i..], replies[i..]);
    assert entries[..i] == prefix + [entries[i - 1]];
    SliceParts(prefix, entries[i - 1], rest);
    PassFrom(entries, replies, i - 1);
  }

  /** The pass from entry `i` on is entry `i`'s step followed by the rest. */
  lemma PassFrom(entries: seq<PendingEntry>, replies: seq<Option<Json>>, i: nat)
    requires |replies| == |entries| && i < |entries|
    ensures Pass(entries[i..], replies[i..]) == StepEntry(entries[i], replies[i]) + Pass(entries[i + 1..], replies[i + 1..])
  {
    assert entries[i..][1..] == entries[i + 1..];
    assert replies[i..][1..] == replies[i + 1..];
  }

  // ----- holding a position -----

  /** `pos.positionAmt > -0.00001 && pos.positionAmt < 0.00001`: a flat
      position re-quotes both sides; any other is held long or short. */
  predicate IsFlat(amt: real): (flat: bool)
    ensures amt == 0.0 ==> flat
    ensures !flat ==> amt >= FLAT_EPSILON || amt <= -FLAT_EPSILON
  {
    -FLAT_EPSILON < amt < FLAT_EPSILON
  }

  /** The closing side and price: SELL at the best ask when long, BUY at the
      best bid otherwise. */
  function CloseTarget(amt: real, bid: real, ask: real): (t: (string, real))
    ensures amt > 0.0 ==> t == ("SELL", ask)
    ensures amt <= 0.0 ==> t == ("BUY", bid)
  {
    if amt > 0.0 then ("SELL", ask) else ("BUY", bid)
  }

  /** A held position is long or short, never flat, so the close side is the
      one that reduces it. */
  lemma CloseSideReduces(amt: real, bid: real, ask: real)
    requires !IsFlat(amt)
    ensures amt >= FLAT_EPSILON ==> CloseTarget(amt, bid, ask).0 == "SELL"
    ensures amt <= -FLAT_EPSILON ==> CloseTarget(amt, bid, ask).0 == "BUY"
  {
  }

  /** The close order the strategy wants kept: on the close side, flagged
      `reduceOnly === true`, at the close price. */
  predicate IsCloseOrder(o: Obj, side: string, price: real, parseFloat: Json -> real)
  {
    Get(o, "side") == Str(side) && Get(o, "reduceOnly") == Bool(true) && parseFloat(Get(o, "price")) == price
  }

  /** The ids the strategy cancels, in list order: every order that is not
      the close order. */
  function NonCloseIds(orders: seq<Obj>, side: string, price: real, parseFloat: Json -> real): (ids: seq<Json>)
    ensures |ids| <= |orders|
    ensures forall o :: o in orders && !IsCloseOrder(o, side, price, parseFloat) ==> Get(o, "orderId") in ids
    ensures forall id :: id in ids ==> exists o :: o in orders && !IsCloseOrder(o, side, price, parseFloat) && Get(o, "orderId") == id
  {
    if orders == [] then []
    else
      var rest := NonCloseIds(orders[1..], side, price, parseFloat);
      assert forall o :: o in orders[1..] ==> o in orders;
      assert forall o :: o in orders ==> o == orders[0] || o in orders[1..];
      if !IsCloseOrder(orders[0], side, price, parseFloat) then [Get(orders[0], "orderId")] + rest else rest
  }

  /** The cancel loop of the holding branch. */
  method CancelNonClose(orders: seq<Obj>, side: string, price: real, parseFloat: Json -> real) returns (cancelled: seq<Json>)
    ensures cancelled == NonCloseIds(orders, side, price, parseFloat)
  {
    cancelled := [];
    var i := |orders|;
    while i > 0
      invariant 0 <= i <= |orders|
      invariant cancelled == NonCloseIds(orders[i..], side, price, parseFloat)
      decreases i
    {
      i := i - 1;
      assert orders[i..][1..] == orders[i + 1..];
      if !IsCloseOrder(orders[i], side, price, parseFloat) {
        cancelled := [Get(orders[i], "orderId")] + cancelled;
      }
    }
  }

  /** `ensureNoPendingReduceOnly`: no open order on `side` at `price` has a
      truthy `reduceOnly`. */
  function NoPendingReduceOnly(orders: seq<Obj>, side: string, price: real, parseFloat: Json -> real): (ok: bool)
    ensures ok <==> forall o :: o in orders ==>
      !(Get(o, "side") == Str(side) && Truthy(Get(o, "reduceOnly")) && parseFloat(Get(o, "price")) == price)
  {
    if orders == [] then true
    else
      assert forall o :: o in orders ==> o == orders[0] || o in orders[1..];
      !(Get(orders[0], "side") == Str(side) && Truthy(Get(orders[0], "reduceOnly")) && parseFloat(Get(orders[0], "price")) == price)
      && NoPendingReduceOnly(orders[1..], side, price, parseFloat)
  }

  /** The guard on placing the close order: none of the still-open orders is
      the close order, the position is not closed, and no reduce-only order
      waits at that side and price in the list fetched last. */
  predicate ShouldPlaceClose(stillOpen: seq<Obj>, lastFetch: seq<Obj>, amt: real, side: string, price: real,
                            parseFloat: Json -> real): (place: bool)
    ensures place ==> !IsFlat(amt)
  {
    && !(exists o :: o in stillOpen && IsCloseOrder(o, side, price, parseFloat))
    && (amt > FLAT_EPSILON || amt < -FLAT_EPSILON)
    && NoPendingReduceOnly(lastFetch, side, price, parseFloat)
  }

  /** The guard never places a second close order: one already resting,
      in the fresh list or in the last fetch, blocks it. */
  lemma PlacedCloseIsNew(stillOpen: seq<Obj>, lastFetch: seq<Obj>, amt: real, side: string, price: real,
                         parseFloat: Json -> real)
    requires ShouldPlaceClose(stillOpen, lastFetch, amt, side, price, parseFloat)
    ensures forall o :: o in stillOpen + lastFetch ==> !IsCloseOrder(o, side, price, parseFloat)
  {
  }

  /** A position of exactly 0.00001 falls between the two tests: it is not
      flat, so it is not re-quoted, yet `Math.abs(amt) > 0.00001` fails, so it
      never gets a close order either. */
  lemma BoundaryPositionGetsNoClose(stillOpen: seq<Obj>, lastFetch: seq<Obj>, side: string, price: real,
                                    parseFloat: Json -> real)
    ensures !IsFlat(FLAT_EPSILON) && !ShouldPlaceClose(stillOpen, lastFetch, FLAT_EPSILON, side, price, parseFloat)
  {
  }

  /** The two checks read `reduceOnly` differently: a close order whose flag
      is the string "true" is not the close order the strategy keeps (so it
      is cancelled), yet it still blocks placing a new one. */
  lemma StringFlagIsCancelledYetBlocks(parseFloat: Json -> real)
    requires parseFloat(Num(100)) == 100.0
    ensures var o := map["side" := Str("SELL"), "reduceOnly" := Str("true"), "price" := Num(100), "orderId" := Num(7)];
      NonCloseIds([o], "SELL", 100.0, parseFloat) == [Num(7)]
      && !NoPendingReduceOnly([o], "SELL", 100.0, parseFloat)
  {
    var o := map["side" := Str("SELL"), "reduceOnly" := Str("true"), "price" := Num(100), "orderId" := Num(7)];
    assert Get(o, "reduceOnly") == Str("true");
    assert !IsCloseOrder(o, "SELL", 100.0, parseFloat);
    assert o in [o];
  }
}
