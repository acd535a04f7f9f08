/**
 * The client-side state the exchange client (exchanges/aster.ts) keeps in
 * step with the exchange: the open-orders table, the recent-candle window and
 * the account snapshot. These functions say what each update computes; the
 * `Aster` class in module AsterClient performs them step by step.
 */
module Reconcile {
  import opened Common
  import opened Normalize

  // ----- open-orders table -----

  /** A value of the open-orders table: a normalised push record with its
      `_pushedOnce` mark, or a REST record stored as received. */
  datatype Entry = Pushed(order: Order, pushedOnce: bool) | Listed(record: Obj)

  /** `Map<orderId, order>`; keys compare as JavaScript `Map` keys do. */
  type Table = map<Json, Entry>

  const MARKET: Json := Str("MARKET")

  function EntryType(e: Entry): Json
  {
    if e.Pushed? then e.order.orderType else Get(e.record, "type")
  }

  predicate Marked(e: Entry)
  {
    if e.Pushed? then e.pushedOnce else Truthy(Get(e.record, "_pushedOnce"))
  }

  /** What the post-push sweep deletes: a MARKET order already pushed once. */
  predicate Spent(e: Entry)
  {
    EntryType(e) == MARKET && Marked(e)
  }

  predicate NoSpent(t: Table)
  {
    forall id :: id in t ==> !Spent(t[id])
  }

  predicate IsLive(r: Order)
  {
    r.status == Str("NEW") || r.status == Str("PARTIALLY_FILLED")
  }

  /** The status branch of `formatOrderUpdate`, before its sweep. */
  function Record(t: Table, r: Order): (u: Table)
    ensures IsLive(r) ==> u == t[r.orderId := Pushed(r, false)]
    ensures !IsLive(r) && r.orderType != MARKET ==> u == t - {r.orderId}
    ensures !IsLive(r) && r.orderType == MARKET ==>
      if r.orderId !in t || !Marked(t[r.orderId]) then u == t[r.orderId := Pushed(r, true)]
      else u == t - {r.orderId}
  {
    if IsLive(r) then t[r.orderId := Pushed(r, false)]
    else if r.orderType == MARKET then
      if r.orderId !in t || !Marked(t[r.orderId]) then t[r.orderId := Pushed(r, true)]
      else t - {r.orderId}
    else t - {r.orderId}
  }

  /** The sweep: every spent entry goes, every other entry stays as it is. */
  function Sweep(t: Table): (u: Table)
    ensures forall id :: id in u <==> id in t && !Spent(t[id])
    ensures forall id :: id in u ==> u[id] == t[id]
    ensures NoSpent(u)
  {
    map id | id in t && !Spent(t[id]) :: t[id]
  }

  /** The table after one order-update push. */
  function OrderUpdate(t: Table, r: Order): Table
  {
    Sweep(Record(t, r))
  }

  /** A NEW or PARTIALLY_FILLED push stores the normalised record under its id
      and, on a table the sweep has already cleaned, changes no other key. */
  lemma LivePushUpserts(t: Table, r: Order)
    requires IsLive(r)
    ensures r.orderId in OrderUpdate(t, r) && OrderUpdate(t, r)[r.orderId] == Pushed(r, false)
    ensures NoSpent(t) ==> OrderUpdate(t, r) == t[r.orderId := Pushed(r, false)]
  {
    if NoSpent(t) {
      var u := OrderUpdate(t, r);
      var w := t[r.orderId := Pushed(r, false)];
      assert forall id :: id in u <==> id in w;
    }
  }

  /** Any other status leaves the id absent, MARKET orders included; on a clean
      table nothing else changes. */
  lemma TerminalPushRemoves(t: Table, r: Order)
    requires !IsLive(r)
    ensures r.orderId !in OrderUpdate(t, r)
    ensures NoSpent(t) ==> OrderUpdate(t, r) == t - {r.orderId}
  {
    if NoSpent(t) {
      var u := OrderUpdate(t, r);
      var w := t - {r.orderId};
      assert forall id :: id in u <==> id in w;
    }
  }

  /** The mark meant to keep a finished MARKET order for one more push is set
      and then swept in the same call: the order never survives the push. */
  lemma MarketMarkIsSweptAtOnce(t: Table, r: Order)
    requires !IsLive(r) && r.orderType == MARKET
    requires r.orderId !in t || !Marked(t[r.orderId])
    ensures r.orderId in Record(t, r) && Spent(Record(t, r)[r.orderId])
    ensures r.orderId !in OrderUpdate(t, r)
  {
  }

  /** The ids of a REST order list. */
  function Ids(list: seq<Obj>): set<Json>
  {
    set i | 0 <= i < |list| :: Get(list[i], "orderId")
  }

  lemma IdsSnoc(list: seq<Obj>)
    requires list != []
    ensures Ids(list) == Ids(list[..|list| - 1]) + {Get(list[|list| - 1], "orderId")}
  {
    var init := list[..|list| - 1];
    forall id | id in Ids(list) ensures id in Ids(init) + {Get(list[|list| - 1], "orderId")} {
      var i :| 0 <= i < |list| && Get(list[i], "orderId") == id;
      if i < |list| - 1 { assert Get(init[i], "orderId") == id; }
    }
    forall id | id in Ids(init) ensures id in Ids(list) {
      var i :| 0 <= i < |init| && Get(init[i], "orderId") == id;
      assert Get(list[i], "orderId") == id;
    }
  }

  /** The table built by setting every record of a REST list under its
      `orderId`, in list order. Its keys are exactly the list's ids. */
  function ListTable(list: seq<Obj>): (t: Table)
    ensures t.Keys == Ids(list)
    decreases |list|
  {
    if list == [] then map[]
    else
      IdsSnoc(list);
      ListTable(list[..|list| - 1])[Get(list[|list| - 1], "orderId") := Listed(list[|list| - 1])]
  }

  /** Each id maps to the last record in the list that carries it. */
  lemma {:induction false} ListTableLastWins(list: seq<Obj>, id: Json)
    requires id in ListTable(list)
    ensures exists i :: (0 <= i < |list| && Get(list[i], "orderId") == id && ListTable(list)[id] == Listed(list[i])
                         && forall j :: i < j < |list| ==> Get(list[j], "orderId") != id)
    decreases |list|
  {
    var n := |list| - 1;
    if Get(list[n], "orderId") == id {
      assert ListTable(list)[id] == Listed(list[n]);
    } else {
      var init := list[..n];
      ListTableLastWins(init, id);
      var i :| 0 <= i < |init| && Get(init[i], "orderId") == id && ListTable(init)[id] == Listed(init[i])
        && forall j :: i < j < |init| ==> Get(init[j], "orderId") != id;
      assert list[i] == init[i];
      assert forall j :: i < j < |list| ==> Get(list[j], "orderId") != id by {
        forall j | i < j < |list| ensures Get(list[j], "orderId") != id {
          if j < n { assert list[j] == init[j]; }
        }
      }
    }
  }

  /** The key set of `t` restricted to `ids`. */
  function Restrict(t: Table, ids: set<Json>): (u: Table)
    ensures u.Keys == t.Keys * ids
    ensures forall id :: id in u ==> u[id] == t[id]
  {
    map id | id in t && id in ids :: t[id]
  }

  // ----- candles -----

  const MAX_KLINES: nat := 100

  /** `findIndex` by open time: the first index whose candle opens at `time`,
      `|ks|` when there is none. */
  function FindOpenTime(ks: seq<Kline>, time: Json): (i: nat)
    ensures i <= |ks|
    ensures i < |ks| ==> ks[i].openTime == time
    ensures forall j :: 0 <= j < i ==> ks[j].openTime != time
    decreases |ks|
  {
    if ks == [] then 0
    else if ks[0].openTime == time then 0
    else 1 + FindOpenTime(ks[1..], time)
  }

  /** The candle window after a kline push. */
  function KlineUpsert(ks: seq<Kline>, k: Kline): (r: seq<Kline>)
    ensures FindOpenTime(ks, k.openTime) < |ks| ==> r == ks[FindOpenTime(ks, k.openTime) := k]
    ensures FindOpenTime(ks, k.openTime) == |ks| ==>
      |r| == (if |ks| < MAX_KLINES then |ks| + 1 else |ks|) && r[|r| - 1] == k
      && r[..|r| - 1] == (if |ks| < MAX_KLINES then ks else ks[1..])
  {
    var i := FindOpenTime(ks, k.openTime);
    if i < |ks| then ks[i := k]
    else
      var appended := ks + [k];
      if |appended| > MAX_KLINES then appended[1..] else appended
  }

  /** The window never grows past 100 candles, and a replaced candle keeps
      its place and the window's length. */
  lemma KlineWindowBounded(ks: seq<Kline>, k: Kline)
    requires |ks| <= MAX_KLINES
    ensures |KlineUpsert(ks, k)| <= MAX_KLINES
    ensures (exists j :: 0 <= j < |ks| && ks[j].openTime == k.openTime) ==> |KlineUpsert(ks, k)| == |ks|
  {
    if exists j :: 0 <= j < |ks| && ks[j].openTime == k.openTime {
      var j :| 0 <= j < |ks| && ks[j].openTime == k.openTime;
      assert FindOpenTime(ks, k.openTime) <= j;
    }
  }

  // ----- account snapshot -----

  /** The account snapshot: its top-level fields, and the `assets` and
      `positions` arrays whose elements pushes update in place. */
  datatype Account = Account(fields: Obj, assets: seq<Obj>, positions: seq<Obj>)

  /** `items.find(matches)` as an index: `|items|` when nothing matches. */
  function FirstMatch(items: seq<Obj>, matches: Obj -> bool): (i: nat)
    ensures i <= |items|
    ensures i < |items| ==> matches(items[i])
    ensures forall j :: 0 <= j < i ==> !matches(items[j])
    decreases |items|
  {
    if items == [] then 0
    else if matches(items[0]) then 0
    else 1 + FirstMatch(items[1..], matches)
  }

  /** The array under `update.a[key]`, when `update.a` is truthy and that
      property is an array. */
  function PushArray(update: Obj, key: string): Option<seq<Json>>
  {
    var a := Get(update, "a");
    if Truthy(a) && PropsOf(a).Some? && Get(PropsOf(a).value, key).Arr? then
      Some(Get(PropsOf(a).value, key).items)
    else None
  }

  /** `o` with `updates` written over it, field by field. */
  function Assign(o: Obj, updates: map<string, Json>): (r: Obj)
    ensures r.Keys == o.Keys + updates.Keys
  {
    o + updates
  }

  /** `Object.assign`: every key of `updates` takes its new value, every other
      key keeps its old one. */
  lemma AssignWrites(o: Obj, updates: map<string, Json>)
    ensures forall key :: key in updates ==> Get(Assign(o, updates), key) == updates[key]
    ensures forall key :: key !in updates ==> Get(Assign(o, updates), key) == Get(o, key)
  {
  }

  /** One balance entry `b` of an ACCOUNT_UPDATE: the first asset whose code is
      `b.a` takes `b.wb` and `b.cw` as its wallet balances. */
  function SetBalance(assets: seq<Obj>, b: Obj): (r: seq<Obj>)
    ensures |r| == |assets|
  {
    var i := FirstMatch(assets, a => Get(a, "asset") == Get(b, "a"));
    if i < |assets| then
      assets[i := Assign(assets[i], map["walletBalance" := Get(b, "wb"), "crossWalletBalance" := Get(b, "cw")])]
    else assets
  }

  /** One position entry `p`: the first position with symbol `p.s` and side
      `p.ps` takes the pushed amount, prices and margin fields. */
  function SetPosition(positions: seq<Obj>, p: Obj, eventTime: Json): (r: seq<Obj>)
    ensures |r| == |positions|
  {
    var i := FirstMatch(positions, x => Get(x, "symbol") == Get(p, "s") && Get(x, "positionSide") == Get(p, "ps"));
    if i < |positions| then
      positions[i := Assign(positions[i], PositionUpdate(p, eventTime))]
    else positions
  }

  function PositionUpdate(p: Obj, eventTime: Json): map<string, Json>
  {
    map["positionAmt" := Get(p, "pa"), "entryPrice" := Get(p, "ep"),
        "unrealizedProfit" := Get(p, "up"), "updateTime" := eventTime,
        "cr" := Get(p, "cr"), "mt" := Get(p, "mt"), "iw" := Get(p, "iw")]
  }

  const BALANCE_KEYS: set<string> := {"walletBalance", "crossWalletBalance"}
  const POSITION_KEYS: set<string> := {"positionAmt", "entryPrice", "unrealizedProfit", "updateTime", "cr", "mt", "iw"}

  /** Applies `entries[i..]` one by one, as the `for ... of` loop does. A
      nullish entry throws (`b.a` on `null`) once `find` calls its callback,
      that is, when the list is non-empty: the entries before it stay applied
      and `ok` is false. On an empty list `find` calls nothing and the entry
      is passed over. */
  function ApplyFrom(items: seq<Obj>, entries: seq<Json>, i: nat, position: bool, eventTime: Json): (r: (seq<Obj>, bool))
    requires i <= |entries|
    decreases |entries| - i
  {
    if i == |entries| then (items, true)
    else match PropsOf(entries[i])
      case None =>
        if items == [] then ApplyFrom(items, entries, i + 1, position, eventTime) else (items, false)
      case Some(e) =>
        var next := if position then SetPosition(items, e, eventTime) else SetBalance(items, e);
        ApplyFrom(next, entries, i + 1, position, eventTime)
  }

  /** `mergeAccountUpdate` on an existing snapshot: balances first, then
      positions, which a throw among the balances skips. */
  function MergeAccount(acct: Account, update: Obj): Account
  {
    var (assets, ok) :=
      if PushArray(update, "B").Some? then ApplyFrom(acct.assets, PushArray(update, "B").value, 0, false, Undefined)
      else (acct.assets, true);
    var positions :=
      if ok && PushArray(update, "P").Some? then ApplyFrom(acct.positions, PushArray(update, "P").value, 0, true, Get(update, "E")).0
      else acct.positions;
    Account(acct.fields, assets, positions)
  }

  /** Two element lists that agree everywhere except on the keys in `keys`. */
  ghost predicate SameExcept(a: seq<Obj>, b: seq<Obj>, keys: set<string>)
  {
    |a| == |b| && forall j, key :: 0 <= j < |a| && key !in keys ==> Get(a[j], key) == Get(b[j], key)
  }

  lemma SameExceptTransitive(a: seq<Obj>, b: seq<Obj>, c: seq<Obj>, keys: set<string>)
    requires SameExcept(a, b, keys) && SameExcept(b, c, keys)
    ensures SameExcept(a, c, keys)
  {
  }

  /** Writing fields named in `keys` onto one element changes nothing else. */
  lemma AssignAtTouchesOnly(items: seq<Obj>, i: nat, updates: map<string, Json>, keys: set<string>)
    requires i < |items| && updates.Keys <= keys
    ensures SameExcept(items, items[i := Assign(items[i], updates)], keys)
  {
    AssignWrites(items[i], updates);
  }

  lemma SetBalanceTouchesOnly(assets: seq<Obj>, b: Obj)
    ensures SameExcept(assets, SetBalance(assets, b), BALANCE_KEYS)
  {
    var i := FirstMatch(assets, a => Get(a, "asset") == Get(b, "a"));
    if i < |assets| {
      AssignAtTouchesOnly(assets, i, map["walletBalance" := Get(b, "wb"), "crossWalletBalance" := Get(b, "cw")], BALANCE_KEYS);
    }
  }

  lemma SetPositionTouchesOnly(positions: seq<Obj>, p: Obj, eventTime: Json)
    ensures SameExcept(positions, SetPosition(positions, p, eventTime), POSITION_KEYS)
  {
    var i := FirstMatch(positions, x => Get(x, "symbol") == Get(p, "s") && Get(x, "positionSide") == Get(p, "ps"));
    if i < |positions| {
      assert PositionUpdate(p, eventTime).Keys == POSITION_KEYS;
      AssignAtTouchesOnly(positions, i, PositionUpdate(p, eventTime), POSITION_KEYS);
    }
  }

  /** The first asset whose code is `b.a` takes `b.wb` and `b.cw`; with no
      such asset the list is unchanged. */
  lemma SetBalanceWritesFirstMatch(assets: seq<Obj>, b: Obj)
    ensures var i := FirstMatch(assets, a => Get(a, "asset") == Get(b, "a"));
      && (i < |assets| ==> Get(SetBalance(assets, b)[i], "walletBalance") == Get(b, "wb")
                           && Get(SetBalance(assets, b)[i], "crossWalletBalance") == Get(b, "cw"))
      && (i == |assets| ==> SetBalance(assets, b) == assets)
  {
    var i := FirstMatch(assets, a => Get(a, "asset") == Get(b, "a"));
    if i < |assets| {
      var u := map["walletBalance" := Get(b, "wb"), "crossWalletBalance" := Get(b, "cw")];
      assert SetBalance(assets, b)[i] == assets[i] + u;
      assert u["walletBalance"] == Get(b, "wb") && u["crossWalletBalance"] == Get(b, "cw");
    }
  }

  /** The first position with symbol `p.s` and side `p.ps` takes the pushed
      amount, entry price, profit and the event time; with no such position
      the list is unchanged. */
  lemma SetPositionWritesFirstMatch(positions: seq<Obj>, p: Obj, eventTime: Json)
    ensures var i := FirstMatch(positions, x => Get(x, "symbol") == Get(p, "s") && Get(x, "positionSide") == Get(p, "ps"));
      && (i < |positions| ==>
            var r := SetPosition(positions, p, eventTime)[i];
            Get(r, "positionAmt") == Get(p, "pa") && Get(r, "entryPrice") == Get(p, "ep")
            && Get(r, "unrealizedProfit") == Get(p, "up") && Get(r, "updateTime") == eventTime)
      && (i == |positions| ==> SetPosition(positions, p, eventTime) == positions)
  {
    var i := FirstMatch(positions, x => Get(x, "symbol") == Get(p, "s") && Get(x, "positionSide") == Get(p, "ps"));
    if i < |positions| {
      var u := PositionUpdate(p, eventTime);
      assert SetPosition(positions, p, eventTime)[i] == positions[i] + u;
      PositionUpdateMoves(p, eventTime);
      PositionUpdateStamps(p, eventTime);
    }
  }

  /** The pushed amount and entry price. */
  lemma PositionUpdateMoves(p: Obj, eventTime: Json)
    ensures "positionAmt" in PositionUpdate(p, eventTime) && PositionUpdate(p, eventTime)["positionAmt"] == Get(p, "pa")
    ensures "entryPrice" in PositionUpdate(p, eventTime) && PositionUpdate(p, eventTime)["entryPrice"] == Get(p, "ep")
  {
  }

  /** The pushed profit and the event time. */
  lemma PositionUpdateStamps(p: Obj, eventTime: Json)
    ensures "unrealizedProfit" in PositionUpdate(p, eventTime) && PositionUpdate(p, eventTime)["unrealizedProfit"] == Get(p, "up")
    ensures "updateTime" in PositionUpdate(p, eventTime) && PositionUpdate(p, eventTime)["updateTime"] == eventTime
  {
  }

  lemma {:induction false} ApplyFromTouchesOnly(items: seq<Obj>, entries: seq<Json>, i: nat, position: bool, eventTime: Json)
    requires i <= |entries|
    ensures SameExcept(items, ApplyFrom(items, entries, i, position, eventTime).0,
                       if position then POSITION_KEYS else BALANCE_KEYS)
    decreases |entries| - i
  {
    var keys := if position then POSITION_KEYS else BALANCE_KEYS;
    if i < |entries| && PropsOf(entries[i]).Some? {
      var e := PropsOf(entries[i]).value;
      var next := if position then SetPosition(items, e, eventTime) else SetBalance(items, e);
      if position {
        SetPositionTouchesOnly(items, e, eventTime);
      } else {
        SetBalanceTouchesOnly(items, e);
      }
      ApplyFromTouchesOnly(next, entries, i + 1, position, eventTime);
      SameExceptTransitive(items, next, ApplyFrom(items, entries, i, position, eventTime).0, keys);
    } else if i < |entries| && items == [] {
      ApplyFromTouchesOnly(items, entries, i + 1, position, eventTime);
    }
  }

  /** An empty list never throws: `find` on it calls no callback, so no entry,
      nullish or not, is ever read, and the list stays empty. */
  lemma {:induction false} ApplyFromEmptyNeverThrows(entries: seq<Json>, i: nat, position: bool, eventTime: Json)
    requires i <= |entries|
    ensures ApplyFrom([], entries, i, position, eventTime) == ([], true)
    decreases |entries| - i
  {
    if i < |entries| {
      ApplyFromEmptyNeverThrows(entries, i + 1, position, eventTime);
    }
  }

  /** On a non-empty list the first nullish entry stops the loop: what came
      before it stays applied and the rest is skipped. */
  lemma {:induction false} ApplyFromStopsAtNullish(items: seq<Obj>, entries: seq<Json>, i: nat, position: bool, eventTime: Json)
    requires i < |entries| && items != [] && IsNullish(entries[i])
    ensures ApplyFrom(items, entries, i, position, eventTime) == (items, false)
  {
  }

  /** A push never adds or removes an asset or a position, and changes no
      field but the balance fields of assets and the pushed fields of
      positions; the top-level fields are untouched. */
  lemma MergeTouchesOnlyPushedFields(acct: Account, update: Obj)
    ensures MergeAccount(acct, update).fields == acct.fields
    ensures SameExcept(acct.assets, MergeAccount(acct, update).assets, BALANCE_KEYS)
    ensures SameExcept(acct.positions, MergeAccount(acct, update).positions, POSITION_KEYS)
  {
    if PushArray(update, "B").Some? {
      ApplyFromTouchesOnly(acct.assets, PushArray(update, "B").value, 0, false, Undefined);
    }
    if PushArray(update, "P").Some? {
      ApplyFromTouchesOnly(acct.positions, PushArray(update, "P").value, 0, true, Get(update, "E"));
    }
  }

  /** The poll's overwrite: every top-level key of the reply is copied onto the
      snapshot; keys the reply lacks keep their old values. */
  function Overwrite(acct: Account, reply: Account): (r: Account)
    ensures forall key :: key in reply.fields ==> Get(r.fields, key) == reply.fields[key]
    ensures forall key :: key !in reply.fields ==> Get(r.fields, key) == Get(acct.fields, key)
    ensures r.assets == reply.assets && r.positions == reply.positions
  {
    AssignWrites(acct.fields, reply.fields);
    Account(Assign(acct.fields, reply.fields), reply.assets, reply.positions)
  }
}
