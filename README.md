# Aster trading bot: a verified model of its bookkeeping core

This project models the stateful and decision-making core of a TypeScript
trading bot for the Aster futures exchange. It covers these parts:

- **The exchange client** (`Aster`, exchanges/aster.ts). It keeps in-memory copies of the exchange's state:
  - the open-orders table, kept current by order-update pushes, by the account snapshot taken when the socket opens, and by a 10-second poll;
  - a window of at most 100 candles;
  - the account snapshot, which pushes update field by field;
  - the set of subscribed channels, which it re-sends whenever the socket opens.

  It also signs REST requests: the parameters are sorted by key, and the same `k=v&…` text is both signed and sent. It normalises pushes and REST replies into one record per entity. Its session runs on timers: heartbeat, reconnect and snapshot retry.
- **The order helpers** (utils/order.ts):
  - price and quantity flooring;
  - the per-order-type lock table, whose recovery timers force a release;
  - cancellation of duplicate orders;
  - the protocol every `place*` operation follows: skip when locked, deduplicate, lock, submit, then keep the lock and the new id, or unlock on failure;
  - the stop-loss and trailing-activation prices.
- **The trend-following strategy** (strategies/trend-following.ts):
  - the `watchOrder` callback that releases order-type locks;
  - the SMA30 crossover that opens a position;
  - the stop, trailing-stop and forced-close decisions for a held position;
  - the main loop's statistics.
- **Small helpers**:
  - position lookup and the 30-candle mean (utils/helper.ts);
  - the bounded trade log (utils/log.ts).
- **The market maker** (maker.ts):
  - the queue of placed orders, which a watcher polls and splices backwards;
  - the flat-position test and the close side;
  - the choice of which orders to cancel;
  - the reduce-only guard.
- **The arbitrage script** (bot.ts):
  - its event log and counters;
  - the long/short/none belief it keeps about each exchange;
  - the reduce-only close-all;
  - the two fill watchers;
  - the entry rule and the close rule;
  - one round of the main loop.

Code that works by updating state in place is modelled as Dafny classes:

- `Aster`, `OrderLocks`, `TrendStrategy`, `PendingQueue`, `TradeLog` and `Bot` are classes whose methods name the fields they change in `modifies` clauses.
- The source's loops are loops with invariants: the copy, resubscribe and reconcile loops of `Aster`, the backward walk of `PendingQueue`, the lock release over the pending order types in `TrendStrategy`, the market maker's cancel loop and the arbitrage script's two fill polls. The methods of `OrderLocks`, `TradeLog` and `Bot` have no loops.
- Where a pure function describes what a method computes, the method's `ensures` is tied to it, for example `openOrders == OrderUpdate(old(openOrders), order)`. The other methods state their new state field by field.
- The properties the source promises are proved as lemmas about those functions and as invariants the classes keep.

Pure normalisers and decision rules are functions.

The model is built on these conventions:

- Exchange replies are method parameters: REST replies, WebSocket frames and fetched order statuses. A failing call is `None` or `Threw`. The client never checks an HTTP status, so a rejected request still yields its JSON error body; only the open-orders reply models that body (`NotAList`), see "## Left out" for the account reply.
- Foreign computations are function parameters: HMAC-SHA256, `JSON.parse`, `parseFloat`, number formatting and random request ids.
- Each timer is an armed flag or handle, and a `Fire…` method consumes it.
- Prices are reals.
- JSON values are a datatype, `Common.Json`, with JavaScript's `undefined`, truthiness, `??` and `String(v)` made explicit.

Modules and files:

| module | file |
|---|---|
| Common | common.dfy |
| Signing | signing.dfy |
| Normalize | normalize.dfy |
| Reconcile | reconcile.dfy |
| AsterClient | aster_client.dfy |
| OrderOps | order_locks.dfy |
| TrendFollowing | trend.dfy |
| Helper | helper.dfy |
| TradeLog | trade_log.dfy |
| Maker | maker.dfy |
| ArbBot | bot.dfy |

## Model

| member | source | states |
|---|---|---|
| Common.PropsOf | bot.ts:227-228 | Reading a property throws exactly when the value is `null` or `undefined`; an object exposes its own fields |
| Common.Coalesce | exchanges/aster.ts:924-943 | `a ?? b` is `a` unless `a` is nullish, else `b` |
| Common.NumStringInjective | strategies/trend-following.ts:70 | Comparing `String(a) === String(b)` on numeric order ids is the same as comparing the numbers (both directions) |
| Signing.Assign | exchanges/aster.ts:389 | Setting a property keeps distinct keys, gives the key its new value, leaves every other key's value, and adds the key to the key set |
| Signing.RecvWindow | exchanges/aster.ts:388 | `recvWindow` is the caller's value when truthy, otherwise 5000 |
| Signing.SortByKey | exchanges/aster.ts:380 | Sorting by key is a permutation of the properties |
| Signing.SortIsStrictlySorted | exchanges/aster.ts:380 | Sorting properties with distinct keys gives strictly ascending keys |
| Signing.SortedUnique | exchanges/aster.ts:380-393 | Two strictly sorted lists of the same properties are equal, so the sorted form does not depend on insertion order |
| Signing.SortKeepsProperties | exchanges/aster.ts:380 | Sorting keeps the key set and each key's value |
| Signing.SignatureIgnoresInsertionOrder | exchanges/aster.ts:378-383 | The signature depends only on the set of properties, not on the order the caller inserted them |
| Signing.SignedParams | exchanges/aster.ts:385-393 | The signed list is strictly sorted, holds the caller's keys plus `timestamp` and `recvWindow`, with the timestamp, the defaulted window, and the caller's values for all other keys |
| Signing.SignedRequest | exchanges/aster.ts:385-406 | The text sent is the signed text plus `&signature=`; it goes in the query for GET and in the body otherwise |
| Normalize.Pick2 | exchanges/aster.ts:928 | The compact key's value when it is not nullish, else the verbose key's value |
| Normalize.Pick3 | exchanges/aster.ts:924 | Compact key, else verbose key, else the default, each taken only when the earlier ones are nullish |
| Normalize.RuleValue | exchanges/aster.ts:924-946 | The field rule (compact, else verbose, else default) in all three of its cases |
| Normalize.FormatOrderFollowsTable | exchanges/aster.ts:922-946 | Every shared field of the normalised order follows its row of the source table |
| Normalize.FieldFollowsTable | exchanges/aster.ts:924-946 | Any single shared field follows its row of the table |
| Normalize.RestRecordKeepsItsValues | exchanges/aster.ts:924-946 | A REST record with no compact keys and every verbose key set keeps its own values in every shared field |
| Normalize.SharedCompactKeys | exchanges/aster.ts:926-944 | Compact `z` feeds both `cumQuote` and `executedQty`; compact `T` feeds both `time` and `updateTime` |
| Normalize.KlinePathsAgreeOnColumns | exchanges/aster.ts:1116-1145 | A REST candle array and a pushed candle carrying the same eleven values give the same eleven canonical fields |
| Normalize.KlinePathsDifferOnPushFields | exchanges/aster.ts:1133-1153 | The two records still differ: only the pushed candle carries its interval and the other push-only fields |
| Normalize.FormatTicker | exchanges/aster.ts:1051-1085 | A mini-ticker push keeps its event type and time; a REST ticker has neither |
| Normalize.TickerFollowsKeys | exchanges/aster.ts:1053-1074 | The seven common ticker fields come from the compact keys of a push, else from the verbose keys of a REST reply |
| Normalize.TickerPathsAgree | exchanges/aster.ts:1051-1074 | A push and a REST reply with the same seven values give the same seven canonical fields |
| Normalize.FormatDepth | exchanges/aster.ts:1008-1019 | Bids and asks are the push's `b`/`a`, else the REST `bids`/`asks`, else `[]`, and are never nullish |
| Normalize.DepthPathsAgree | exchanges/aster.ts:1015-1018 | A depth push and a REST snapshot with the same update id and levels give the same book |
| Reconcile.Record | exchanges/aster.ts:965-983 | A live status upserts the record unmarked; another status deletes a non-MARKET id and marks a MARKET record pushed-once |
| Reconcile.Sweep | exchanges/aster.ts:984-989 | The sweep deletes exactly the marked MARKET entries, keeps every other entry unchanged, and leaves none marked |
| Reconcile.LivePushUpserts | exchanges/aster.ts:965-989 | A NEW or PARTIALLY_FILLED push stores the normalised record under its id; on a swept table no other key changes |
| Reconcile.TerminalPushRemoves | exchanges/aster.ts:968-989 | Any other status leaves the id absent, MARKET orders included; on a swept table nothing else changes |
| Reconcile.MarketMarkIsSweptAtOnce | exchanges/aster.ts:969-989 | A finished MARKET order is marked to survive one push and is swept in the same call, so it never survives |
| Reconcile.ListTable | exchanges/aster.ts:1182-1184 | The table built from a REST list has exactly the list's order ids as keys |
| Reconcile.ListTableLastWins | exchanges/aster.ts:1182-1184 | Each id maps to the last record in the list that carries it |
| Reconcile.Restrict | exchanges/aster.ts:1175-1180 | The deletion pass keeps exactly the keys in the listed ids, each with its old value |
| Reconcile.FindOpenTime | exchanges/aster.ts:297 | `findIndex` by open time: the first matching index, or the length when none matches |
| Reconcile.KlineUpsert | exchanges/aster.ts:297-304 | A candle with a known open time replaces the first such candle in place; otherwise it is appended, and the oldest is dropped past 100 |
| Reconcile.KlineWindowBounded | exchanges/aster.ts:301-303 | The window never grows past 100, and a replacement keeps its length |
| Reconcile.FirstMatch | exchanges/aster.ts:854 | `find` as an index: the first element that matches, or the length when none does |
| Reconcile.Assign | exchanges/aster.ts:1163-1165 | `Object.assign` has the union of the two key sets |
| Reconcile.AssignWrites | exchanges/aster.ts:856-877 | Every written key takes its new value, and every other key keeps its old one |
| Reconcile.SetBalance | exchanges/aster.ts:853-861 | A balance entry never adds or removes an asset |
| Reconcile.SetBalanceWritesFirstMatch | exchanges/aster.ts:853-861 | The first asset whose code matches takes the pushed wallet and cross-wallet balances; with no match the list is unchanged |
| Reconcile.SetBalanceTouchesOnly | exchanges/aster.ts:853-861 | A balance entry changes nothing but the two balance keys |
| Reconcile.SetPosition | exchanges/aster.ts:865-879 | A position entry never adds or removes a position |
| Reconcile.SetPositionWritesFirstMatch | exchanges/aster.ts:865-879 | The first position with the pushed symbol and side takes the pushed amount, entry price and profit, plus the event time; with no match the list is unchanged |
| Reconcile.SetPositionTouchesOnly | exchanges/aster.ts:865-879 | A position entry changes nothing but the position keys the push writes |
| Reconcile.ApplyFromTouchesOnly | exchanges/aster.ts:853-879 | Applying any run of entries, even one cut short by a throw, changes only the pushed keys |
| Reconcile.ApplyFromEmptyNeverThrows | exchanges/aster.ts:853-879 | On an empty list no entry is read, so even nullish entries do not throw and the list stays empty |
| Reconcile.ApplyFromStopsAtNullish | exchanges/aster.ts:853-879 | On a non-empty list a nullish entry throws: the list is as the earlier entries left it and the rest is skipped |
| Reconcile.MergeTouchesOnlyPushedFields | exchanges/aster.ts:849-881 | A push adds and removes no asset or position, changes only the pushed keys, and leaves the top-level fields alone |
| Reconcile.Overwrite | exchanges/aster.ts:1161-1168 | Every top-level key of the poll reply is copied; keys the reply lacks keep their values; the arrays are the reply's (see Left out) |
| AsterClient.TrimStart | exchanges/aster.ts:260 | The result is a suffix of the input and does not start with JavaScript white space or a line terminator |
| AsterClient.TrimEnd | exchanges/aster.ts:260 | The result is a prefix of the input and does not end with JavaScript white space or a line terminator |
| AsterClient.Classify | exchanges/aster.ts:259-271 | A frame is a ping exactly when its trimmed text is `ping`; it is parsed exactly when it is not a ping and looks like JSON |
| AsterClient.TextReceived | exchanges/aster.ts:269-309 | Only frames that parse reach the dispatcher; a ping or other text leaves the caches unchanged |
| AsterClient.Dispatched | exchanges/aster.ts:272-306 | Each event type changes only its own cache, and an account push never creates a snapshot |
| AsterClient.DispatchKeepsWindow | exchanges/aster.ts:294-304 | No push grows the candle window past 100 |
| AsterClient.Enumerate | exchanges/aster.ts:319-321 | Iterating the set visits each member exactly once |
| AsterClient.SubscribeFrames | exchanges/aster.ts:319-321 | One SUBSCRIBE frame per channel, in order, each with its random id |
| AsterClient.Aster.constructor | exchanges/aster.ts:243-252 | A new client is connecting, has sent nothing, subscribes nothing, caches nothing, and has the poll armed |
| AsterClient.Aster.Emit | exchanges/aster.ts:514-519 | A frame is written now when the socket is open, else queued for the open event |
| AsterClient.Aster.Subscribe | exchanges/aster.ts:507-521 | The channel joins the set unless it is the current listen-key channel, and a SUBSCRIBE frame goes out |
| AsterClient.Aster.Unsubscribe | exchanges/aster.ts:523-536 | The channel leaves the set, and an UNSUBSCRIBE frame goes out |
| AsterClient.Aster.Resubscribe | exchanges/aster.ts:319-321 | The set is unchanged, each member is enumerated once, and exactly its SUBSCRIBE frames go out |
| AsterClient.Aster.SubscribeEach | exchanges/aster.ts:319-321 | Subscribing existing members leaves the set unchanged and sends their frames in order |
| AsterClient.Aster.SubscribeUserData | exchanges/aster.ts:818-822 | The listen key becomes the listen-key channel, joins the set only when falsy, and is subscribed with id 99 |
| AsterClient.Aster.Opened | exchanges/aster.ts:517-519 | When the connecting socket opens, the queued frames go out in order and the queue empties |
| AsterClient.Aster.OnOpen | exchanges/aster.ts:315-341 | Sent frames are the queued ones, one SUBSCRIBE per channel of the old set, then the listen-key SUBSCRIBE (id 99) when a key arrives; the snapshot and order table are as `initAccountSnapshot(0)` leaves them; with a key both intervals are armed, without one the socket closes and nothing else changes |
| AsterClient.Aster.Reopen | exchanges/aster.ts:315-321 | The socket is open, the queued frames then one SUBSCRIBE per channel of the unchanged set are sent, and the snapshot, order table and retries are as `initAccountSnapshot(0)` leaves them |
| AsterClient.Aster.OnClose | exchanges/aster.ts:342-358 | Both intervals are cleared, and a reconnect is armed |
| AsterClient.Aster.Close | exchanges/aster.ts:538-549 | The socket moves to closing, and the intervals and the poll are cleared; the reconnect is not disarmed |
| AsterClient.Aster.FireReconnect | exchanges/aster.ts:352-356 | An armed reconnect opens a new socket without the old queued frames; otherwise nothing changes |
| AsterClient.Aster.FirePong | exchanges/aster.ts:325-329 | The heartbeat sends `pong` only while armed and open |
| AsterClient.Aster.SnapshotFailed | exchanges/aster.ts:835-844 | Below five retries, the next retry is armed; after that, the socket is closed |
| AsterClient.Aster.InitAccountSnapshot | exchanges/aster.ts:825-846 | An account reply is stored; a listed orders reply rebuilds the table, one that is not a list empties it, a failed request leaves it; any failure arms retry+1 below 5 retries and closes an open socket at 5 |
| AsterClient.Aster.FireInitRetry | exchanges/aster.ts:838 | The earliest armed retry runs the snapshot again with its retry number, with every outcome of `InitAccountSnapshot`; with none armed nothing changes |
| AsterClient.Aster.MergeAccountUpdate | exchanges/aster.ts:849-881 | Without a snapshot nothing happens; with one, the snapshot becomes the merged account |
| AsterClient.Aster.ApplyEntries | exchanges/aster.ts:853-879 | The entry loop computes exactly what the specification function does: the stop on a throw, and the pass over a nullish entry when the list is empty |
| AsterClient.Aster.FormatOrderUpdate | exchanges/aster.ts:922-989 | The table becomes the specified order update of the normalised record |
| AsterClient.Aster.StoreOrder | exchanges/aster.ts:965-989 | Store or drop by status, then sweep, equal to the specified order update |
| AsterClient.Aster.SweepSpent | exchanges/aster.ts:985-989 | The deletion loop computes the sweep |
| AsterClient.Aster.UpsertKline | exchanges/aster.ts:294-304 | The candle window becomes the specified upsert and stays within 100 |
| AsterClient.Aster.Dispatch | exchanges/aster.ts:272-306 | The caches become what the specification says the push does |
| AsterClient.Aster.OnText | exchanges/aster.ts:256-313 | A ping is answered with `pong` when open; the caches change as the classified frame specifies |
| AsterClient.Aster.OnJsonText | exchanges/aster.ts:269-309 | Parse and dispatch; a parse failure or a non-object changes nothing |
| AsterClient.Aster.OverwriteAccount | exchanges/aster.ts:1161-1168 | The poll's account step overwrites top-level keys, or installs the reply when there is no snapshot |
| AsterClient.Aster.AssignFields | exchanges/aster.ts:1163-1165 | The copy loop computes `Object.assign` |
| AsterClient.Aster.ReconcileOrders | exchanges/aster.ts:1175-1184 | After a poll, the table is exactly the REST list keyed by order id |
| AsterClient.Aster.DropUnlisted | exchanges/aster.ts:1175-1180 | The deletion loop keeps exactly the listed ids |
| AsterClient.Aster.SetListed | exchanges/aster.ts:1182-1184 | The insertion loop sets every listed record, giving the list's table |
| AsterClient.Aster.PollTick | exchanges/aster.ts:1156-1190 | A failed account request ends the tick with nothing changed; otherwise the account is overwritten, then a listed orders reply reconciles the table and any other reply leaves it |
| OrderOps.RoundPrice | utils/order.ts:8-10 | The result is a multiple of 0.1 at most the price and within 0.1 of it |
| OrderOps.RoundPriceIsLargest | utils/order.ts:8-10 | No multiple of 0.1 lies between the rounded price and the price |
| OrderOps.RoundPriceIdempotent | utils/order.ts:8-10 | Rounding twice is rounding once |
| OrderOps.RoundQuantity | utils/order.ts:15-17 | The result is a multiple of 0.001 at most the quantity and within 0.001 of it |
| OrderOps.RoundQuantityIsLargest | utils/order.ts:15-17 | No multiple of 0.001 lies between the rounded quantity and the quantity |
| OrderOps.RoundQuantityIdempotent | utils/order.ts:15-17 | Rounding twice is rounding once |
| OrderOps.SameKind | utils/order.ts:74 | The filter keeps exactly the orders of the given type and side |
| OrderOps.InsertByRecency | utils/order.ts:77-81 | Insertion adds exactly one element |
| OrderOps.SortByRecency | utils/order.ts:77-81 | The sort is a permutation |
| OrderOps.SortIsNewestFirst | utils/order.ts:77-81 | The sorted list is newest first by `updateTime \|\| time \|\| 0` |
| OrderOps.FirstNewest | utils/order.ts:77-81 | The index of the first order holding the greatest recency |
| OrderOps.SortKeepsFirstNewest | utils/order.ts:77-81 | The stable sort puts first the newest order, and the earliest of equally new ones |
| OrderOps.OrderIds | utils/order.ts:84 | The ids of the orders, position by position |
| OrderOps.DedupKeepsNewest | utils/order.ts:74-84 | With two or more same-kind orders, the cancelled ones are exactly all but the newest |
| OrderOps.LimitParams | utils/order.ts:117-126 | A post-only (GTX) LIMIT order at the floored price and quantity, reduce-only when asked |
| OrderOps.StopLossParams | utils/order.ts:183-192 | A closing STOP_MARKET (GTC) at the floored stop price |
| OrderOps.CloseParams | utils/order.ts:223-229 | A reduce-only MARKET order for the configured amount |
| OrderOps.TrailingParams | utils/order.ts:293-303 | A reduce-only TRAILING_STOP_MARKET with a floored activation price and the 0.2 callback rate |
| OrderOps.MarketParams | utils/order.ts:339-345 | A MARKET order with no price, for the floored amount |
| OrderOps.StopLossAfterRounding | utils/order.ts:168-192 | A SELL stop that passes the check stays strictly below the last price after flooring; a BUY stop only stays above `last - 0.1` |
| OrderOps.BuyStopCanCrossAfterRounding | utils/order.ts:168-192 | Last 100.05, BUY stop 100.06 is accepted and sent at 100.0, below the last price |
| OrderOps.StopLossPrice | utils/order.ts:247-258 | At the stop price the position loses exactly the maximum loss |
| OrderOps.TrailingActivationPrice | utils/order.ts:263-274 | At the activation price the position gains exactly the target profit |
| OrderOps.StopAndActivationMirror | utils/order.ts:247-274 | The stop is on the losing side of the entry, activation on the winning side, and they mirror each other about the entry |
| OrderOps.ClearedDropsKind | utils/order.ts:37-43 | Clearing a type's timer disarms exactly the timers that would release that type |
| OrderOps.LockKeepsConsistent | utils/order.ts:29-44 | Locking under a fresh timer keeps locks and armed timers in step |
| OrderOps.UnlockKeepsConsistent | utils/order.ts:49-59 | Unlocking and clearing the timer keeps them in step |
| OrderOps.FireKeepsConsistent | utils/order.ts:39-43 | A firing timer releases its type and disarms itself, keeping them in step |
| OrderOps.ArmThenClear | utils/order.ts:39-58 | Arming a timer and clearing it again restores the armed set |
| OrderOps.OrderLocks.constructor | utils/order.ts:22-24 | At start no type is locked |
| OrderOps.OrderLocks.Lock | utils/order.ts:29-44 | The type is locked, its timer replaced by a fresh armed one, and its pending id and other types untouched |
| OrderOps.OrderLocks.Unlock | utils/order.ts:49-59 | Lock false, pending id null and timer cleared, for that type only |
| OrderOps.OrderLocks.FireTimer | utils/order.ts:39-43 | An armed timer releases its type and nulls its pending id; an unknown handle changes nothing |
| OrderOps.OrderLocks.Deduplicate | utils/order.ts:64-97 | At most one same-kind order: nothing sent. Otherwise: cancel all but the newest under a lock, ending unlocked |
| OrderOps.OrderLocks.CancelUnder | utils/order.ts:86-96 | Lock, send one batch cancel, unlock, whatever the cancel did |
| OrderOps.OrderLocks.Submit | utils/order.ts:128-142 | A locked type sends nothing and changes no lock, id or timer; otherwise dedup then submit, keeping lock and id on success and unlocking on failure |
| OrderOps.OrderLocks.PlaceUnder | utils/order.ts:128-142 | Lock and send; success keeps the lock and records `String(orderId)`; failure unlocks |
| OrderOps.OrderLocks.PlaceLimitOrder | utils/order.ts:102-143 | Skipped with no request and no lock, id or timer change when LIMIT is locked; otherwise dedup and submit with the limit parameters: placed keeps LIMIT locked with the new id, failed unlocks it and clears the id |
| OrderOps.OrderLocks.PlaceStopLossOrder | utils/order.ts:148-206 | Skipped with no request and no state change when locked, without a ticker, or with the stop on the wrong side; otherwise dedup and submit: placed keeps STOP_MARKET locked with the new id, failed unlocks it and clears the id |
| OrderOps.OrderLocks.ClosePositionMarket | utils/order.ts:211-242 | Skipped with no request and no lock, id or timer change when MARKET is locked; otherwise dedup and submit with the close parameters: placed keeps MARKET locked with the new id, failed unlocks it and clears the id |
| OrderOps.OrderLocks.PlaceTrailingStopOrder | utils/order.ts:279-320 | Skipped with no request and no lock, id or timer change when TRAILING_STOP_MARKET is locked; otherwise dedup and submit with the trailing parameters: placed keeps TRAILING_STOP_MARKET locked with the new id, failed unlocks it and clears the id |
| OrderOps.OrderLocks.PlaceMarketOrder | utils/order.ts:325-359 | Skipped with no request and no lock, id or timer change when MARKET is locked; otherwise dedup and submit with the market parameters: placed keeps MARKET locked with the new id, failed unlocks it and clears the id |
| TrendFollowing.FindPending | strategies/trend-following.ts:70 | The first order whose `String(orderId)` equals the pending id, or the length |
| TrendFollowing.Releases | strategies/trend-following.ts:67-78 | Only a set pending id releases its type, and a listed order releases it only with a status other than NEW |
| TrendFollowing.ReleasedTypes | strategies/trend-following.ts:67-78 | The released types are pending types with a set id |
| TrendFollowing.ListedNewOrderHolds | strategies/trend-following.ts:69-74 | A type whose pending order is listed with status NEW keeps its lock |
| TrendFollowing.MissingOrderReleases | strategies/trend-following.ts:75-78 | A type whose pending order is missing from the published list is released |
| TrendFollowing.ListedOrderStatusDecides | strategies/trend-following.ts:69-74 | A listed pending order keeps its type locked iff its status is NEW or empty |
| TrendFollowing.NullPendingIsKept | strategies/trend-following.ts:68-69 | A type with a null pending id is never released by the callback, locked or not |
| TrendFollowing.NonMarket | strategies/trend-following.ts:82 | The stored list keeps exactly the non-MARKET orders |
| TrendFollowing.NonMarketAppend | strategies/trend-following.ts:82 | The filter distributes over concatenation, so order is preserved |
| TrendFollowing.OpenSignal | strategies/trend-following.ts:134-168 | SELL iff the last price was above the SMA and the price is below; BUY iff the reverse; nothing otherwise |
| TrendFollowing.HasNoPosition | strategies/trend-following.ts:110-112 | A zero amount is no position; a held position has a sign, so its closing side and `1 / |positionAmt|` are defined |
| TrendFollowing.SignalNeedsMove | strategies/trend-following.ts:136-153 | A signal needs the SMA strictly between the last and current prices |
| TrendFollowing.Opening | strategies/trend-following.ts:117-170 | Cancel-all iff there are open orders; a market order iff there is a signal, on the signal's side |
| TrendFollowing.FindKind | strategies/trend-following.ts:209-217 | The first open order of the given type and side, or the length |
| TrendFollowing.ProfitMoveStop | strategies/trend-following.ts:212-215 | The stop sits at the price where the position has gained 0.05, floored by less than 0.1 |
| TrendFollowing.ProfitMoveStopLocksIn | strategies/trend-following.ts:212-215 | A stop hit there realises at most 0.05 on a long and at least 0.05 on a short |
| TrendFollowing.Pnl | strategies/trend-following.ts:189-192 | Profit is positive iff the price moved in the position's favour, and negative iff against it |
| TrendFollowing.MoveStop | strategies/trend-following.ts:219-255 | Above 0.1 profit: place the moved stop when none exists, replace a stop more than 0.01 away, keep one close by; all on the closing side |
| TrendFollowing.Protect | strategies/trend-following.ts:257-287 | The initial stop iff no stop is open on the closing side; the trailing stop iff no trailing stop is open |
| TrendFollowing.ForceClose | strategies/trend-following.ts:289-311 | A market close iff the position is to be closed, on the closing side |
| TrendFollowing.Manage | strategies/trend-following.ts:175-315 | Closed iff pnl or unrealized profit is below minus the maximum loss; every order is on the closing side |
| TrendFollowing.InitialStopIsOnTheLosingSide | strategies/trend-following.ts:195-200 | With no stop open, the plan places an initial stop: below entry for a long; above entry minus 0.1 for a short, since flooring to one decimal can take up to 0.1 off |
| TrendFollowing.TrendStrategy.constructor | strategies/trend-following.ts:321-325 | Empty orders, no last price, zero totals |
| TrendFollowing.TrendStrategy.OnOrders | strategies/trend-following.ts:65-83 | Unlocks exactly the released types and stores the non-MARKET orders; a non-array throws iff some pending id is truthy |
| TrendFollowing.TrendStrategy.Tick | strategies/trend-following.ts:320-406 | Without data nothing changes; a flat position opens on a signal; a held one is managed, and a forced close adds one trade and its profit and keeps the last price (exchange calls assumed to succeed, see Left out) |
| Helper.GetPosition | utils/helper.ts:7-25 | Zeros without a snapshot or without the symbol; otherwise the first entry with the symbol, whatever its side |
| Helper.LaterEntriesDoNotMatter | utils/helper.ts:15 | Entries after the first match never change the result |
| Helper.Closes | utils/helper.ts:35 | The parsed close of each candle, position by position |
| Helper.Window | utils/helper.ts:35 | The last 30 candles |
| Helper.Mean | utils/helper.ts:36 | The mean lies between the lowest and highest term |
| Helper.SumBounds | utils/helper.ts:36 | A sum lies between n times the least and n times the greatest term |
| Helper.MeanWithin | utils/helper.ts:36 | The mean lies between the minimum and maximum |
| Helper.Sma30 | utils/helper.ts:30-37 | Null iff candles are missing or fewer than 30; otherwise the mean of the last 30 closes, between their minimum and maximum |
| Helper.Sma30IgnoresOlderCandles | utils/helper.ts:35 | Candles before the last 30 do not affect the average |
| Helper.SumOfConstant | utils/helper.ts:36 | A sum of n equal terms is n times the term |
| Helper.Sma30OfFlatMarket | utils/helper.ts:35-36 | Thirty equal closes average to that close |
| TradeLog.PushBounded | utils/log.ts:10-13 | The new entry is last; below 1000 nothing is removed; at the bound the length stays; retained entries are the old log's newest, in order |
| TradeLog.LogAllLength | utils/log.ts:10-13 | After n more entries the log holds min(old + n, 1000) entries |
| TradeLog.LogAllIsSuffix | utils/log.ts:10-13 | The log is always the newest part of everything logged, in order |
| TradeLog.TradeLog.constructor | utils/log.ts:10 | An empty log |
| TradeLog.TradeLog.LogTrade | utils/log.ts:10-13 | The log becomes the bounded push of the new item and stays within 1000 |
| Maker.FetchedStatus | maker.ts:81-82 | A status is read iff the fetch succeeded with a truthy reply |
| Maker.StepEntry | maker.ts:79-89 | A failed fetch keeps the entry; a final status removes it; otherwise the entry is kept with `lastStatus` updated |
| Maker.PassAppend | maker.ts:78-94 | A pass works entry by entry and keeps queue order |
| Maker.Pass | maker.ts:78-94 | A pass never grows the queue |
| Maker.PassKeepsOrderIds | maker.ts:78-94 | Every entry a pass keeps has the id of a queued order |
| Maker.PassRemovesFinished | maker.ts:87-89 | A pass removes exactly as many entries as were fetched with a final status |
| Maker.FailedPassKeepsQueue | maker.ts:91-93 | A pass where every fetch fails changes nothing |
| Maker.PlacedId | maker.ts:115 | An id exists only for a truthy reply with a truthy `orderId`, and it is that id |
| Maker.PendingQueue.constructor | maker.ts:69 | An empty queue |
| Maker.PendingQueue.PlaceOrder | maker.ts:103-127 | A reply with an id is queued and returned; otherwise null is returned and the queue is unchanged |
| Maker.PendingQueue.WatchPass | maker.ts:78-94 | The backwards splice loop computes the forward pass |
| Maker.PendingQueue.UpdateAt | maker.ts:79-90 | Entry i is replaced by its step, and the rest of the queue stays |
| Maker.CloseTarget | maker.ts:281-282 | SELL at the best ask when long, BUY at the best bid otherwise |
| Maker.IsFlat | maker.ts:219 | A zero amount is flat; any other position is at least 0.00001 long or short |
| Maker.CloseSideReduces | maker.ts:219 | A non-flat position is closed on the side that reduces it |
| Maker.NonCloseIds | maker.ts:284-289 | Exactly the ids of orders that are not the close order |
| Maker.CancelNonClose | maker.ts:284-289 | The cancel loop cancels exactly those ids, in list order |
| Maker.NoPendingReduceOnly | maker.ts:185-189 | True iff no open order on the side and price has a truthy `reduceOnly` |
| Maker.ShouldPlaceClose | maker.ts:290-297 | A close order is placed only for a position that is not flat |
| Maker.PlacedCloseIsNew | maker.ts:290-297 | A resting close order, in the fresh list or in the last fetch, blocks a new one |
| Maker.BoundaryPositionGetsNoClose | maker.ts:292 | A position of exactly 0.00001 is neither re-quoted nor given a close order |
| Maker.StringFlagIsCancelledYetBlocks | maker.ts:284-296 | A close order with `reduceOnly` "true" (a string) is cancelled as not-close, yet still blocks a new close order |
| ArbBot.AsterOrderParams | bot.ts:155-165 | With a price: LIMIT with FOK; without one: MARKET |
| ArbBot.BitgetOrderParams | bot.ts:184-195 | With a price: limit with fok; without one: market with gtc |
| ArbBot.SameOrderOnBothExchanges | bot.ts:153-195 | Both exchanges are sent the same side, amount, price and reduce-only flag |
| ArbBot.ClosingSide | bot.ts:238-247 | No close side iff no position |
| ArbBot.OpenThenCloseIsFlat | bot.ts:167-173 | An accepted opening order then an accepted reduce-only order leaves no position; a refused order changes nothing |
| ArbBot.CloseRequests | bot.ts:236-248 | One reduce-only market order per flagged exchange, opposite to the flag, Aster first |
| ArbBot.Read | bot.ts:215 | A property read throws iff the value is nullish |
| ArbBot.AsterVerdictMeans | bot.ts:212-222 | True iff the first status read within 20 polls is FILLED |
| ArbBot.WaitAsterFilled | bot.ts:212-222 | The polling loop returns the specified verdict |
| ArbBot.BitgetVerdictMeans | bot.ts:224-234 | True iff the first settling state within 20 polls is filled |
| ArbBot.WaitBitgetFilled | bot.ts:224-234 | The polling loop returns the specified verdict |
| ArbBot.Entry | bot.ts:267-270 | The buy-Aster leg iff Bitget's bid exceeds Aster's ask by more than 80; the sell-Aster leg iff that fails and Aster's bid exceeds Bitget's ask by more than 80; none iff neither |
| ArbBot.EntryOrderIrrelevantOnUncrossedBooks | bot.ts:270 | On uncrossed books at most one leg qualifies, so the order of the checks does not matter |
| ArbBot.Profit | bot.ts:386-391 | The corrected profit is the negation of the profit as written |
| ArbBot.ProfitAsWritten | bot.ts:386-390 | Each exchange's price move is weighted by the quantity held on the other exchange |
| ArbBot.ConvergedSpreadBookedAsLoss | bot.ts:387-389 | As written, a fully converged hedge is booked as a loss larger than the entry spread |
| ArbBot.ProfitSignCounterexample | bot.ts:387 | A concrete hedge that made 0.1 is booked at -0.1 |
| ArbBot.ConvergedSpreadIsProfit | bot.ts:371-391 | With the corrected sign, a converged hedge books more than the entry spread times the amount |
| ArbBot.Logged | bot.ts:96-100 | `logEvent` pushes onto the bounded log and changes nothing else |
| ArbBot.AsterPlaced | bot.ts:153-180 | The request is sent, the Aster flag follows an accepted reply, a throw keeps the flag, nothing else changes |
| ArbBot.BitgetPlaced | bot.ts:182-210 | The same for Bitget via `data.orderId` |
| ArbBot.ClosedAll | bot.ts:236-248 | Sends the close requests; each accepted one clears its flag; with no flags nothing changes |
| ArbBot.HedgeOutcome | bot.ts:283-306 | The Bitget half completes iff its order is accepted and fills, and never touches the Aster flag |
| ArbBot.AbortOutcome | bot.ts:272-293 | A failed open keeps the counters and only appends to what was sent |
| ArbBot.OpenOutcome | bot.ts:270-345 | An open completes iff both legs are accepted and fill, adding one trade and the amount; every attempt starts with the Aster FOK order |
| ArbBot.OpenedOutcome | bot.ts:277-306 | Once the Aster leg fills, the attempt's result is the Bitget half's |
| ArbBot.OpenAbortedOutcome | bot.ts:271-282 | A refused or unfilled Aster leg aborts the attempt |
| ArbBot.CloseOutcome | bot.ts:361-410 | The close rule alone decides whether a round closes; a close books the corrected profit (see Findings) and sends the close orders |
| ArbBot.Settled | bot.ts:385-409 | A close books the corrected profit, counts no trade, sends the close requests and keeps the log bounded |
| ArbBot.RoundTripLeavesNoPosition | bot.ts:258-410 | An open then close with every order accepted leaves no position and counts one trade |
| ArbBot.Bot.constructor | bot.ts:89-94 | Empty log, zero counters, no positions |
| ArbBot.Bot.LogEvent | bot.ts:96-100 | The state becomes the logged state, and the log stays bounded |
| ArbBot.Bot.ResetStats | bot.ts:108-111 | Zero counters and an empty log; the flags stay |
| ArbBot.Bot.PlaceAsterOrder | bot.ts:153-180 | Returns the reply or null, and the state becomes the specified placement |
| ArbBot.Bot.PlaceBitgetOrder | bot.ts:182-210 | The same for Bitget |
| ArbBot.Bot.CloseAllPositions | bot.ts:236-248 | The state becomes the specified close-all |
| ArbBot.Bot.Abort | bot.ts:272-275 | The state becomes the specified abort |
| ArbBot.Bot.OpenPosition | bot.ts:270-306 | The state and result are the specified open attempt |
| ArbBot.Bot.HedgeOnBitget | bot.ts:283-306 | The state and result are the specified Bitget half |
| ArbBot.Bot.RecordOpen | bot.ts:295-302 | One more trade, the amount added, and the open line logged |
| ArbBot.Bot.ClosePosition | bot.ts:382-410 | The state and result are the specified close round, booking the corrected profit (see Findings) |
| ArbBot.Bot.Settle | bot.ts:385-409 | The state becomes the specified settlement with the corrected profit (see Findings) |
| ArbBot.Bot.Round | bot.ts:256-419 | Without books nothing changes; flat without a signal nothing changes; flat with a signal it opens; holding it may close, booking the corrected profit (see Findings) |

## Left out

- Network I/O is not modelled. This covers `fetch`, WebSocket construction, the thin REST and subscribe wrappers, ccxt, and the `watchOrderBookWS` loops. Their replies are parameters.
- HMAC-SHA256 is a function parameter. So are `JSON.parse`, `parseFloat`, `toFixed`, `Math.random` request ids and `Date.now` / `toLocaleString`.
- Timer mechanics are not modelled. Each interval or timeout is an armed flag or handle, and `Fire…` methods consume them.
- The watch-until-ready 200 ms polling and callback publication are callback plumbing. `watch*` only registers a callback.
- `Map` and `Set` iteration order is left open. `Enumerate` yields some order of the members.
- Prices are reals. IEEE-754 rounding, NaN and Infinity are not modelled; the 0.00001 epsilons are exact reals.
- Numbers on the wire (ids, times) are integers.
- Async interleaving is not modelled: each composite operation (`place*`, `deduplicateOrders`, a poll tick, a round) runs atomically. The gap between the lock check and the acquire is therefore not explored.
- The `while (true)` main loops, their sleeps and the catch around a round (bot.ts:412-417) are left out. A single `Round` or `Tick` is modelled.
- The maker's main loop is left out: its position and entry-price tracking and its wait after a forced close. Only its queue, close-side, cancel and guard rules are modelled.
- cli.ts and `printStatus` are terminal UI.
- trend.ts is a stale copy of strategies/trend-following.ts and is not part of this model.
- `getStats`/`getLogs` return copies. Dafny values are immutable, so there is nothing to copy.
- The null `lastAsterSide` branches of the close step (bot.ts:366-368) are left out. The model holds a hedge only after an accepted open.
- OrderOps.StopLossPrice: requires a non-zero quantity. JavaScript would divide by zero and give Infinity. The long case is stated for a positive quantity only.
- OrderOps.TrailingActivationPrice: requires a non-zero quantity, for the same reason.
- OrderOps.SortByRecency: `updateTime || time || 0` is read as a number, and a non-number counts as 0 rather than being compared as JavaScript would.
- Object equality (`===` on records) is value equality in the model.
- The comment at exchanges/aster.ts:969, and the project's documentation, describe a terminal MARKET order surviving one more push. The code sweeps it in the same call, and the model follows the code (`Reconcile.MarketMarkIsSweptAtOnce`).
- The BUY stop-loss side check happens before flooring, so an accepted BUY stop can be sent at or below the last price. This is modelled as written (`OrderOps.BuyStopCanCrossAfterRounding`).
- `close()` does not disarm the reconnect that `onclose` arms, so the client reconnects after a close. This is modelled as written.
- TrendFollowing.TrendStrategy.Tick: assumes every exchange call it makes succeeds. In the source a rejected `cancelAllOrders` (strategies/trend-following.ts:130), `cancelOrders` (294) or `closePositionMarket` rethrows: the tick ends at that call, the trade and profit counters (376-377) are not updated, and the uncaught rejection ends the strategy (410). The model does not capture that path.
- Reconcile.Overwrite: the account reply always carries `assets` and `positions`. A rejected request's error body `{code, msg}` has neither, so the source keeps the snapshot's arrays and adds `code` and `msg` to it; the model replaces the arrays with the reply's.
- AsterClient.Aster.OverwriteAccount: inherits the `Reconcile.Overwrite` gap for an error body.
- AsterClient.Aster.PollTick: an account error body is not distinguished from an account (see `Reconcile.Overwrite`). The open-orders error body is modelled (`NotAList`).
- AsterClient.Aster.InitAccountSnapshot: the source stores an account error body as the snapshot; the model stores whatever `Account` it is given, and an error body without the arrays is not representable. The open-orders error body is modelled: the table is cleared, then the `for ... of` throws and a retry is armed.
- The close profit the model books is the corrected `ArbBot.Profit`. bot.ts:391 adds, and bot.ts:406 logs, the as-written profit (see "## Findings"). The following members therefore state the corrected behaviour, not the code's:
- ArbBot.Settled: books `Profit`, where the code books `ProfitAsWritten`, its negation.
- ArbBot.CloseOutcome: states the corrected profit, as `ArbBot.Settled` does.
- ArbBot.Bot.Settle: books the corrected profit, as `ArbBot.Settled` does.
- ArbBot.Bot.ClosePosition: books the corrected profit, as `ArbBot.Settled` does.
- ArbBot.Bot.Round: books the corrected profit when it closes, as `ArbBot.Settled` does.
- Signing.Less: compares code points. `Array.prototype.sort` compares UTF-16 code units. The two orders differ only for keys holding characters above U+FFFF, which parameter names do not contain.

## Findings

| source | as written | input that shows it | evidently intended | confidence | as-written member | corrected member |
|---|---|---|---|---|---|---|
| bot.ts:386-390 | the close profit takes each leg's price move with the sign of the opposite position, so it is minus the hedge's gain | Buy-Aster leg entered at Aster ask 100 and Bitget bid 200; both quoted 150 at close (`Book(150, 149, 151, 150)`): the hedge gained 0.1 but -0.1 is booked | profit = sum of the two legs' gains: long Aster gains `asterAsk - entryAster`, short Bitget gains `entryBitget - bitgetBid` | not executed | ArbBot.ProfitAsWritten (shown by ArbBot.ProfitSignCounterexample, ArbBot.ConvergedSpreadBookedAsLoss) | ArbBot.Profit (ArbBot.ConvergedSpreadIsProfit) |
