/**
 * The two-exchange arbitrage script of bot.ts. Its module globals (the
 * event log, the three counters, and the long/short/none belief about each
 * exchange) become the fields of the class `Bot`. Order placement records
 * what the script believes it holds. The two fill watchers poll at most 20
 * times. One round of the main loop either opens a hedge when the spread
 * passes 80, or closes it.
 *
 * Exchange replies, clock readings and number formatting are parameters:
 * a placement reply is `Returned(v)` or `Threw(message)`, and a status
 * fetch is `None` where it throws.
 */
module ArbBot {
  import opened Common
  import opened TradeLog

  const TRADE_SYMBOL: string := "BTCUSDT"
  const TRADE_AMOUNT: real := 0.001
  const ARB_THRESHOLD: real := 80.0
  const CLOSE_DIFF: real := 3.0
  const PROFIT_DIFF_LIMIT: real := 1.0
  /** Both fill watchers give up after this many polls. */
  const FILL_POLLS: nat := 20

  datatype Side = Buy | Sell

  function Opposite(s: Side): Side
  {
    if s == Buy then Sell else Buy
  }

  /** `"long" | "short" | "none"`: what the script believes it holds on one exchange. */
  datatype PositionFlag = Long | Short | NoPosition

  datatype Stats = Stats(totalTrades: nat, totalAmount: real, totalProfit: real)

  const ZERO_STATS: Stats := Stats(0, 0.0, 0.0)

  function Abs(x: real): real
  {
    if x < 0.0 then -x else x
  }

  // ----- placing orders -----

  datatype AsterParams = AsterParams(symbol: string, side: string, orderType: string, quantity: real,
                                     price: Option<real>, reduceOnly: bool, timeInForce: Option<string>)

  datatype BitgetParams = BitgetParams(productType: string, symbol: string, marginMode: string,
                                       marginCoin: string, side: string, orderType: string, size: real,
                                       force: string, price: Option<real>, reduceOnly: string)

  /** An order request as sent, in sending order. */
  datatype OrderRequest = AsterOrder(aster: AsterParams) | BitgetOrder(bitget: BitgetParams)

  /** `price ? … : …`: an absent price and a price of 0 are both falsy. */
  predicate HasPrice(price: Option<real>)
  {
    price.Some? && price.value != 0.0
  }

  /** The parameters of `placeAsterOrder`: a fill-or-kill limit order when a
      price is given, a market order otherwise. */
  function AsterOrderParams(side: Side, amount: real, price: Option<real>, reduceOnly: bool): (p: AsterParams)
    ensures HasPrice(price) ==> p.orderType == "LIMIT" && p.timeInForce == Some("FOK")
    ensures !HasPrice(price) ==> p.orderType == "MARKET" && p.timeInForce.None?
  {
    AsterParams(TRADE_SYMBOL, if side == Buy then "BUY" else "SELL", if HasPrice(price) then "LIMIT" else "MARKET",
                amount, price, reduceOnly, if HasPrice(price) then Some("FOK") else None)
  }

  /** The parameters of `placeBitgetOrder`: fill-or-kill limit with a price,
      good-till-cancelled market without one. */
  function BitgetOrderParams(side: Side, amount: real, price: Option<real>, reduceOnly: bool): (p: BitgetParams)
    ensures HasPrice(price) ==> p.orderType == "limit" && p.force == "fok"
    ensures !HasPrice(price) ==> p.orderType == "market" && p.force == "gtc"
  {
    BitgetParams("USDT-FUTURES", TRADE_SYMBOL, "crossed", "USDT", if side == Buy then "buy" else "sell",
                 if HasPrice(price) then "limit" else "market", amount, if HasPrice(price) then "fok" else "gtc",
                 price, if reduceOnly then "YES" else "NO")
  }

  /** Both exchanges are sent the same order in their own vocabulary. */
  lemma SameOrderOnBothExchanges(side: Side, amount: real, price: Option<real>, reduceOnly: bool)
    ensures var a, g := AsterOrderParams(side, amount, price, reduceOnly), BitgetOrderParams(side, amount, price, reduceOnly);
      && (a.orderType == "LIMIT" <==> g.orderType == "limit")
      && (a.timeInForce == Some("FOK") <==> g.force == "fok")
      && (a.side == "BUY" <==> g.side == "buy")
      && (a.reduceOnly <==> g.reduceOnly == "YES")
      && a.quantity == g.size && a.price == g.price
  {
  }

  /** The outcome of one exchange call: its reply, or the message of what it threw. */
  datatype Reply = Returned(value: Json) | Threw(error: string)

  /** What the placement helpers return: the reply, or `null` after a throw. */
  function Answer(r: Reply): Json
  {
    if r.Returned? then r.value else Null
  }

  /** `order && order.orderId` */
  predicate AsterAccepted(order: Json)
  {
    Truthy(order) && Truthy(Get(PropsOf(order).value, "orderId"))
  }

  /** `order && order.data && order.data.orderId` */
  predicate BitgetAccepted(order: Json)
  {
    Truthy(order) &&
    var data := Get(PropsOf(order).value, "data");
    Truthy(data) && Truthy(Get(PropsOf(data).value, "orderId"))
  }

  /** The flag after one placement: an accepted opening order records its
      side, an accepted reduce-only order clears it, and anything else
      leaves it as it was. */
  function NextFlag(flag: PositionFlag, side: Side, reduceOnly: bool, accepted: bool): PositionFlag
  {
    if !accepted then flag
    else if reduceOnly then NoPosition
    else if side == Buy then Long
    else Short
  }

  /** The side `closeAllPositions` trades to undo a flag: sell a long, buy a
      short, nothing without a position. */
  function ClosingSide(flag: PositionFlag): (s: Option<Side>)
    ensures s.None? <==> flag == NoPosition
  {
    match flag
    case Long => Some(Sell)
    case Short => Some(Buy)
    case NoPosition => None
  }

  /** The flag tracks the last accepted order: opening on one side and then
      closing it with the side `closeAllPositions` picks leaves no position;
      a rejected or thrown order changes nothing. */
  lemma OpenThenCloseIsFlat(flag: PositionFlag, side: Side)
    ensures var entered := NextFlag(flag, side, false, true);
      && entered == (if side == Buy then Long else Short)
      && ClosingSide(entered) == Some(Opposite(side))
      && NextFlag(entered, Opposite(side), true, true) == NoPosition
    ensures forall reduceOnly: bool :: NextFlag(flag, side, reduceOnly, false) == flag
  {
  }

  /** The orders `closeAllPositions` sends for the two flags: aster first. */
  function CloseRequests(aster: PositionFlag, bitget: PositionFlag): (r: seq<OrderRequest>)
    ensures |r| == (if aster == NoPosition then 0 else 1) + (if bitget == NoPosition then 0 else 1)
    ensures forall i :: 0 <= i < |r| ==>
      (r[i].AsterOrder? ==> r[i].aster.reduceOnly && r[i].aster.orderType == "MARKET") &&
      (r[i].BitgetOrder? ==> r[i].bitget.reduceOnly == "YES" && r[i].bitget.orderType == "market")
    ensures aster == Long ==> r[0] == AsterOrder(AsterOrderParams(Sell, TRADE_AMOUNT, None, true))
    ensures aster == Short ==> r[0] == AsterOrder(AsterOrderParams(Buy, TRADE_AMOUNT, None, true))
  {
    (match ClosingSide(aster)
     case None => []
     case Some(side) => [AsterOrder(AsterOrderParams(side, TRADE_AMOUNT, None, true))])
    + (match ClosingSide(bitget)
       case None => []
       case Some(side) => [BitgetOrder(BitgetOrderParams(side, TRADE_AMOUNT, None, true))])
  }

  // ----- waiting for fills -----

  /** `v.key`: `None` where the read throws (`v` is `null` or `undefined`). */
  function Read(v: Json, key: string): (r: Option<Json>)
    ensures r.None? <==> IsNullish(v)
  {
    if IsNullish(v) then None else Some(Get(PropsOf(v).value, key))
  }

  /** `res.status` of one Aster order fetch; `None` where the fetch or the read throws. */
  function AsterStatus(fetched: Option<Json>): Option<Json>
  {
    if fetched.None? then None else Read(fetched.value, "status")
  }

  /** `res.data.state` of one Bitget order fetch; `None` where anything throws. */
  function BitgetState(fetched: Option<Json>): Option<Json>
  {
    if fetched.None? then None
    else match Read(fetched.value, "data")
      case None => None
      case Some(data) => Read(data, "state")
  }

  /** The verdict of `waitAsterFilled` from poll `i` on: the first poll that
      reads a status decides; polls that throw are retried. */
  function AsterVerdict(fetch: nat -> Option<Json>, i: nat): bool
    decreases FILL_POLLS - i
  {
    if i >= FILL_POLLS then false
    else match AsterStatus(fetch(i))
      case Some(status) => status == Str("FILLED")
      case None => AsterVerdict(fetch, i + 1)
  }

  /** Poll `k` is the first of the 20 to read a status. */
  predicate AsterAnswersFirstAt(fetch: nat -> Option<Json>, k: nat)
  {
    k < FILL_POLLS && AsterStatus(fetch(k)).Some? && forall j :: 0 <= j < k ==> AsterStatus(fetch(j)).None?
  }

  /** The Aster watcher answers true exactly when the first status it reads
      within 20 polls is FILLED; one non-FILLED status ends the wait at false. */
  lemma {:induction false} AsterVerdictMeans(fetch: nat -> Option<Json>, i: nat)
    requires i <= FILL_POLLS
    requires forall j :: 0 <= j < i ==> AsterStatus(fetch(j)).None?
    ensures AsterVerdict(fetch, i) <==> exists k :: AsterAnswersFirstAt(fetch, k) && AsterStatus(fetch(k)) == Some(Str("FILLED"))
    decreases FILL_POLLS - i
  {
    if i < FILL_POLLS {
      if AsterStatus(fetch(i)).None? {
        AsterVerdictMeans(fetch, i + 1);
      } else {
        assert AsterAnswersFirstAt(fetch, i);
        forall k: nat | AsterAnswersFirstAt(fetch, k) ensures k == i {
        }
      }
    } else {
      forall k: nat | AsterAnswersFirstAt(fetch, k) ensures false {
      }
    }
  }

  /** `waitAsterFilled`. */
  method WaitAsterFilled(fetch: nat -> Option<Json>) returns (filled: bool)
    ensures filled == AsterVerdict(fetch, 0)
  {
    var i := 0;
    while i < FILL_POLLS
      invariant i <= FILL_POLLS
      invariant AsterVerdict(fetch, i) == AsterVerdict(fetch, 0)
    {
      var status := AsterStatus(fetch(i));
      if status.Some? {
        return status.value == Str("FILLED");
      }
      i := i + 1;
    }
    return false;
  }

  /** The three states that end `waitBitgetFilled`. */
  predicate Settles(state: Option<Json>)
  {
    state == Some(Str("filled")) || state == Some(Str("canceled")) || state == Some(Str("failed"))
  }

  /** The verdict of `waitBitgetFilled` from poll `i` on: "filled" answers
      true, "canceled" or "failed" false; any other state, and a throw, polls
      again. */
  function BitgetVerdict(fetch: nat -> Option<Json>, i: nat): bool
    decreases FILL_POLLS - i
  {
    if i >= FILL_POLLS then false
    else if BitgetState(fetch(i)) == Some(Str("filled")) then true
    else if Settles(BitgetState(fetch(i))) then false
    else BitgetVerdict(fetch, i + 1)
  }

  predicate BitgetSettlesFirstAt(fetch: nat -> Option<Json>, k: nat)
  {
    k < FILL_POLLS && Settles(BitgetState(fetch(k))) && forall j :: 0 <= j < k ==> !Settles(BitgetState(fetch(j)))
  }

  /** The Bitget watcher answers true exactly when the first settling state
      within 20 polls is "filled": states such as "live" or "partially_filled"
      keep it waiting, unlike the Aster watcher. */
  lemma {:induction false} BitgetVerdictMeans(fetch: nat -> Option<Json>, i: nat)
    requires i <= FILL_POLLS
    requires forall j :: 0 <= j < i ==> !Settles(BitgetState(fetch(j)))
    ensures BitgetVerdict(fetch, i) <==> exists k :: BitgetSettlesFirstAt(fetch, k) && BitgetState(fetch(k)) == Some(Str("filled"))
    decreases FILL_POLLS - i
  {
    if i < FILL_POLLS {
      if !Settles(BitgetState(fetch(i))) {
        BitgetVerdictMeans(fetch, i + 1);
      } else {
        assert BitgetSettlesFirstAt(fetch, i);
        forall k: nat | BitgetSettlesFirstAt(fetch, k) ensures k == i {
        }
      }
    } else {
      forall k: nat | BitgetSettlesFirstAt(fetch, k) ensures false {
      }
    }
  }

  /** `waitBitgetFilled`. */
  method WaitBitgetFilled(fetch: nat -> Option<Json>) returns (filled: bool)
    ensures filled == BitgetVerdict(fetch, 0)
  {
    var i := 0;
    while i < FILL_POLLS
      invariant i <= FILL_POLLS
      invariant BitgetVerdict(fetch, i) == BitgetVerdict(fetch, 0)
    {
      var state := BitgetState(fetch(i));
      if state == Some(Str("filled")) {
        return true;
      }
      if state == Some(Str("canceled")) || state == Some(Str("failed")) {
        return false;
      }
      i := i + 1;
    }
    return false;
  }

  // ----- the entry and close rules -----

  /** The best ask and bid of each book (`asks[0][0]`, `bids[0][0]`). */
  datatype Book = Book(asterAsk: real, asterBid: real, bitgetAsk: real, bitgetBid: real)

  /** Buy on Aster and sell on Bitget, or the reverse. */
  datatype Leg = BuyAsterSellBitget | SellAsterBuyBitget

  /** The entry rule: buy Aster when Bitget's bid passes Aster's ask by more
      than the threshold, else sell Aster when Aster's bid passes Bitget's
      ask by more than it, else wait. */
  function Entry(b: Book): (leg: Option<Leg>)
    ensures leg == Some(BuyAsterSellBitget) <==> b.bitgetBid - b.asterAsk > ARB_THRESHOLD
    ensures leg == Some(SellAsterBuyBitget) <==>
      b.bitgetBid - b.asterAsk <= ARB_THRESHOLD && b.asterBid - b.bitgetAsk > ARB_THRESHOLD
    ensures leg.None? <==> b.bitgetBid - b.asterAsk <= ARB_THRESHOLD && b.asterBid - b.bitgetAsk <= ARB_THRESHOLD
  {
    if b.bitgetBid - b.asterAsk > ARB_THRESHOLD then Some(BuyAsterSellBitget)
    else if b.asterBid - b.bitgetAsk > ARB_THRESHOLD then Some(SellAsterBuyBitget)
    else None
  }

  /** On books that are not crossed (bid at most ask on each exchange) the
      two spreads cannot both pass the threshold, so the order in which the
      rule tests them does not matter. */
  lemma EntryOrderIrrelevantOnUncrossedBooks(b: Book)
    requires b.asterBid <= b.asterAsk && b.bitgetBid <= b.bitgetAsk
    ensures !(b.bitgetBid - b.asterAsk > ARB_THRESHOLD && b.asterBid - b.bitgetAsk > ARB_THRESHOLD)
    ensures Entry(b) == Some(SellAsterBuyBitget) <==> b.asterBid - b.bitgetAsk > ARB_THRESHOLD
  {
  }

  function AsterSide(leg: Leg): Side
  {
    if leg == BuyAsterSellBitget then Buy else Sell
  }

  /** The price each leg is placed at: the ask it buys at, the bid it sells at. */
  function AsterEntryPrice(leg: Leg, b: Book): real
  {
    if leg == BuyAsterSellBitget then b.asterAsk else b.asterBid
  }

  function BitgetEntryPrice(leg: Leg, b: Book): real
  {
    if leg == BuyAsterSellBitget then b.bitgetBid else b.bitgetAsk
  }

  /** A held hedge: `lastAsterSide`/`lastBitgetSide` and the two entry prices. */
  datatype Holding = Holding(leg: Leg, entryAster: real, entryBitget: real)

  function EnteredAt(leg: Leg, b: Book): Holding
  {
    Holding(leg, AsterEntryPrice(leg, b), BitgetEntryPrice(leg, b))
  }

  /** `profitAster` and `profitBitget`: what each leg has gained at the current books. */
  function LegProfits(h: Holding, b: Book): (real, real)
  {
    if h.leg == BuyAsterSellBitget then
      ((b.asterAsk - h.entryAster) * TRADE_AMOUNT, (h.entryBitget - b.bitgetBid) * TRADE_AMOUNT)
    else
      ((h.entryAster - b.asterBid) * TRADE_AMOUNT, (b.bitgetAsk - h.entryBitget) * TRADE_AMOUNT)
  }

  function CloseDiff(h: Holding, b: Book): real
  {
    if h.leg == BuyAsterSellBitget then Abs(b.asterAsk - b.bitgetBid) else Abs(b.asterBid - b.bitgetAsk)
  }

  function ProfitDiff(h: Holding, b: Book): real
  {
    Abs(LegProfits(h, b).0 - LegProfits(h, b).1)
  }

  /** The close rule: the spread the hedge was entered on has narrowed below
      3, or the two legs' profits differ by more than 1. */
  predicate CloseDue(h: Holding, b: Book)
  {
    CloseDiff(h, b) < CLOSE_DIFF || ProfitDiff(h, b) > PROFIT_DIFF_LIMIT
  }

  /** `profit` as the close branch computes it: each exchange's price move
      weighted by the quantity held on the OTHER exchange. */
  function ProfitAsWritten(h: Holding, b: Book): (p: real)
    ensures p == BitgetHeld(h.leg) * (b.asterAsk - h.entryAster) + AsterHeld(h.leg) * (b.bitgetBid - h.entryBitget)
  {
    if h.leg == BuyAsterSellBitget then
      (b.bitgetBid - h.entryBitget) * TRADE_AMOUNT - (b.asterAsk - h.entryAster) * TRADE_AMOUNT
    else
      (h.entryBitget - b.bitgetBid) * TRADE_AMOUNT - (h.entryAster - b.asterAsk) * TRADE_AMOUNT
  }

  /** The quantity held on each exchange: positive when long. */
  function AsterHeld(leg: Leg): real
  {
    if leg == BuyAsterSellBitget then TRADE_AMOUNT else -TRADE_AMOUNT
  }

  function BitgetHeld(leg: Leg): real
  {
    -AsterHeld(leg)
  }

  /** The hedge's profit with both legs marked at the prices the close branch
      reads (Aster's ask, Bitget's bid): the held quantity times the price
      move, summed over the two exchanges. */
  function Profit(h: Holding, b: Book): (p: real)
    ensures p == -ProfitAsWritten(h, b)
  {
    AsterHeld(h.leg) * (b.asterAsk - h.entryAster) + BitgetHeld(h.leg) * (b.bitgetBid - h.entryBitget)
  }

  /** As written, a hedge whose spread has fully converged (Aster's ask equal
      to Bitget's bid) is booked as a loss larger than the spread it was
      entered on. */
  lemma ConvergedSpreadBookedAsLoss(leg: Leg, entry: Book, b: Book)
    requires Entry(entry) == Some(leg)
    requires b.asterAsk == b.bitgetBid
    ensures ProfitAsWritten(EnteredAt(leg, entry), b) < -ARB_THRESHOLD * TRADE_AMOUNT
  {
  }

  /** The concrete case: bought Aster at 100 and sold Bitget at 200, both
      now quoted at 150. The hedge made 0.1 USDT; the close branch books -0.1. */
  lemma ProfitSignCounterexample()
    ensures var h, b := Holding(BuyAsterSellBitget, 100.0, 200.0), Book(150.0, 149.0, 151.0, 150.0);
      Entry(Book(100.0, 99.0, 201.0, 200.0)) == Some(BuyAsterSellBitget)
      && ProfitAsWritten(h, b) == -0.1 && Profit(h, b) == 0.1
  {
  }

  /** With the corrected sign, a converged spread books at least the spread
      the hedge was entered on, times the traded amount. */
  lemma ConvergedSpreadIsProfit(leg: Leg, entry: Book, b: Book)
    requires Entry(entry) == Some(leg)
    requires b.asterAsk == b.bitgetBid
    ensures Profit(EnteredAt(leg, entry), b) > ARB_THRESHOLD * TRADE_AMOUNT
  {
  }

  // ----- the script's state and its steps -----

  /** The module globals `logs`, `stats`, `asterPosition`, `bitgetPosition`,
      and the orders sent so far. */
  datatype BotState = BotState(logs: seq<TradeLogItem>, stats: Stats, asterPosition: PositionFlag,
                               bitgetPosition: PositionFlag, requests: seq<OrderRequest>)

  /** `logEvent` */
  function Logged(s: BotState, time: string, kind: string, detail: string): (r: BotState)
    ensures r.logs == PushBounded(s.logs, TradeLogItem(time, kind, detail))
    ensures r.(logs := s.logs) == s
  {
    s.(logs := PushBounded(s.logs, TradeLogItem(time, kind, detail)))
  }

  const ASTER_FAILED: string := "[aster] Order failed: "
  const BITGET_FAILED: string := "[bitget] Order failed: "

  /** The error line a thrown placement logs; nothing otherwise. */
  function FailureLogged(s: BotState, time: string, prefix: string, reply: Reply): BotState
  {
    if reply.Threw? then Logged(s, time, "error", prefix + reply.error) else s
  }

  /** `placeAsterOrder`: the request is sent; a throw logs an error; the
      Aster flag follows the reply. */
  function AsterPlaced(s: BotState, side: Side, amount: real, price: Option<real>, reduceOnly: bool,
                       time: string, reply: Reply): (r: BotState)
    ensures r.requests == s.requests + [AsterOrder(AsterOrderParams(side, amount, price, reduceOnly))]
    ensures r.asterPosition == NextFlag(s.asterPosition, side, reduceOnly, AsterAccepted(Answer(reply)))
    ensures reply.Threw? ==> r.asterPosition == s.asterPosition
    ensures r.bitgetPosition == s.bitgetPosition && r.stats == s.stats
    ensures |s.logs| <= MAX_ENTRIES ==> |r.logs| <= MAX_ENTRIES
  {
    var sent := s.(requests := s.requests + [AsterOrder(AsterOrderParams(side, amount, price, reduceOnly))]);
    var logged := FailureLogged(sent, time, ASTER_FAILED, reply);
    logged.(asterPosition := NextFlag(s.asterPosition, side, reduceOnly, AsterAccepted(Answer(reply))))
  }

  /** `placeBitgetOrder`, the same for Bitget. */
  function BitgetPlaced(s: BotState, side: Side, amount: real, price: Option<real>, reduceOnly: bool,
                        time: string, reply: Reply): (r: BotState)
    ensures r.requests == s.requests + [BitgetOrder(BitgetOrderParams(side, amount, price, reduceOnly))]
    ensures r.bitgetPosition == NextFlag(s.bitgetPosition, side, reduceOnly, BitgetAccepted(Answer(reply)))
    ensures reply.Threw? ==> r.bitgetPosition == s.bitgetPosition
    ensures r.asterPosition == s.asterPosition && r.stats == s.stats
    ensures |s.logs| <= MAX_ENTRIES ==> |r.logs| <= MAX_ENTRIES
  {
    var sent := s.(requests := s.requests + [BitgetOrder(BitgetOrderParams(side, amount, price, reduceOnly))]);
    var logged := FailureLogged(sent, time, BITGET_FAILED, reply);
    logged.(bitgetPosition := NextFlag(s.bitgetPosition, side, reduceOnly, BitgetAccepted(Answer(reply))))
  }

  /** `closeAllPositions`: a reduce-only market order against each flagged
      position; an accepted one clears its flag. */
  function ClosedAll(s: BotState, time: string, asterReply: Reply, bitgetReply: Reply): (r: BotState)
    ensures r.requests == s.requests + CloseRequests(s.asterPosition, s.bitgetPosition)
    ensures r.asterPosition == (if AsterAccepted(Answer(asterReply)) then NoPosition else s.asterPosition)
    ensures r.bitgetPosition == (if BitgetAccepted(Answer(bitgetReply)) then NoPosition else s.bitgetPosition)
    ensures r.stats == s.stats
    ensures s.asterPosition == NoPosition && s.bitgetPosition == NoPosition ==> r == s
    ensures |s.logs| <= MAX_ENTRIES ==> |r.logs| <= MAX_ENTRIES
  {
    var afterAster :=
      match ClosingSide(s.asterPosition)
      case None => s
      case Some(side) => AsterPlaced(s, side, TRADE_AMOUNT, None, true, time, asterReply);
    match ClosingSide(afterAster.bitgetPosition)
    case None => afterAster
    case Some(side) => BitgetPlaced(afterAster, side, TRADE_AMOUNT, None, true, time, bitgetReply)
  }

  /** Every exchange reply one open attempt may meet. */
  datatype OpenReplies = OpenReplies(asterPlace: Reply, asterFetch: nat -> Option<Json>,
                                     bitgetPlace: Reply, bitgetFetch: nat -> Option<Json>,
                                     asterClose: Reply, bitgetClose: Reply)

  /** A failed open: close whatever is flagged, then log why. */
  function Aborted(s: BotState, time: string, env: OpenReplies, why: string): BotState
  {
    Logged(ClosedAll(s, time, env.asterClose, env.bitgetClose), time, "error", why)
  }

  /** The open log line; `show` is JavaScript's number-to-string. */
  function OpenDetail(leg: Leg, b: Book, show: real -> string): string
  {
    var amount := show(TRADE_AMOUNT);
    if leg == BuyAsterSellBitget then
      "Aster buy " + amount + "@" + show(b.asterAsk) + ", Bitget sell " + amount + "@" + show(b.bitgetBid)
    else
      "Aster sell " + amount + "@" + show(b.asterBid) + ", Bitget buy " + amount + "@" + show(b.bitgetAsk)
  }

  predicate OpenSucceeds(env: OpenReplies)
  {
    && AsterAccepted(Answer(env.asterPlace)) && AsterVerdict(env.asterFetch, 0)
    && BitgetAccepted(Answer(env.bitgetPlace)) && BitgetVerdict(env.bitgetFetch, 0)
  }

  /** One open attempt on `leg`: the Aster leg first, at its book price as
      fill-or-kill; the Bitget leg only once the Aster leg has filled. */
  function AttemptOpen(s: BotState, leg: Leg, b: Book, time: string, env: OpenReplies, show: real -> string): (BotState, bool)
  {
    var side := AsterSide(leg);
    var s1 := AsterPlaced(s, side, TRADE_AMOUNT, Some(AsterEntryPrice(leg, b)), false, time, env.asterPlace);
    if !AsterAccepted(Answer(env.asterPlace)) then
      (Aborted(s1, time, env, "Aster order failed, positions closed"), false)
    else if !AsterVerdict(env.asterFetch, 0) then
      (Aborted(s1, time, env, "Aster order not filled, positions closed"), false)
    else HedgedOnBitget(s1, leg, b, time, env, show)
  }

  /** The second half of an open attempt, once the Aster leg has filled. */
  function HedgedOnBitget(s: BotState, leg: Leg, b: Book, time: string, env: OpenReplies, show: real -> string): (BotState, bool)
  {
    var s1 := BitgetPlaced(s, Opposite(AsterSide(leg)), TRADE_AMOUNT, Some(BitgetEntryPrice(leg, b)), false, time, env.bitgetPlace);
    if !BitgetAccepted(Answer(env.bitgetPlace)) then
      (Aborted(s1, time, env, "Bitget order failed, positions closed"), false)
    else if !BitgetVerdict(env.bitgetFetch, 0) then
      (Aborted(s1, time, env, "Bitget order not filled, positions closed"), false)
    else
      (Recorded(s1, leg, b, time, show), true)
  }

  /** A completed open: one more trade, `TRADE_AMOUNT` more volume, and the open log line. */
  function Recorded(s: BotState, leg: Leg, b: Book, time: string, show: real -> string): BotState
  {
    var counted := s.(stats := s.stats.(totalTrades := s.stats.totalTrades + 1,
                                        totalAmount := s.stats.totalAmount + TRADE_AMOUNT));
    Logged(counted, time, "open", OpenDetail(leg, b, show))
  }

  /** The close log line; `fixed2` is `toFixed(2)`. */
  function CloseDetail(h: Holding, b: Book, fixed2: real -> string): string
  {
    "Close position, Profit: " + fixed2(Profit(h, b)) + " USDT"
    + (if ProfitDiff(h, b) > PROFIT_DIFF_LIMIT then " (Profit difference exceeded threshold, force close)" else "")
  }

  /** One round while holding: when the close rule fires, book the profit,
      close every flagged position and log; otherwise nothing happens. */
  function AttemptClose(s: BotState, h: Holding, b: Book, time: string, asterReply: Reply, bitgetReply: Reply,
                        fixed2: real -> string): (BotState, bool)
  {
    if !CloseDue(h, b) then (s, false) else (Settled(s, h, b, time, asterReply, bitgetReply, fixed2), true)
  }

  /** A close: book the profit, close every flagged position, log the close
      line. A close is not counted as a trade. */
  function Settled(s: BotState, h: Holding, b: Book, time: string, asterReply: Reply, bitgetReply: Reply,
                   fixed2: real -> string): (r: BotState)
    ensures r.stats.totalTrades == s.stats.totalTrades && r.stats.totalAmount == s.stats.totalAmount
    ensures r.stats.totalProfit == s.stats.totalProfit + Profit(h, b)
    ensures r.requests == s.requests + CloseRequests(s.asterPosition, s.bitgetPosition)
    ensures |s.logs| <= MAX_ENTRIES ==> |r.logs| <= MAX_ENTRIES
  {
    var booked := s.(stats := s.stats.(totalProfit := s.stats.totalProfit + Profit(h, b)));
    Logged(ClosedAll(booked, time, asterReply, bitgetReply), time, "close", CloseDetail(h, b, fixed2))
  }

  /** The Bitget half completes exactly when its order is accepted and
      fills; it never touches the Aster flag, and what was sent before stays. */
  lemma HedgeOutcome(s: BotState, leg: Leg, b: Book, time: string, env: OpenReplies, show: real -> string)
    ensures var r := HedgedOnBitget(s, leg, b, time, env, show);
      && (r.1 <==> BitgetAccepted(Answer(env.bitgetPlace)) && BitgetVerdict(env.bitgetFetch, 0))
      && (r.1 ==> r.0.stats == s.stats.(totalTrades := s.stats.totalTrades + 1,
                                        totalAmount := s.stats.totalAmount + TRADE_AMOUNT))
      && (!r.1 ==> r.0.stats == s.stats)
      && (r.1 ==> r.0.asterPosition == s.asterPosition
                  && r.0.bitgetPosition == (if AsterSide(leg) == Buy then Short else Long))
      && (r.1 ==> r.0.requests == s.requests + [BitgetOrder(BitgetOrderParams(
                    Opposite(AsterSide(leg)), TRADE_AMOUNT, Some(BitgetEntryPrice(leg, b)), false))])
      && |s.requests| < |r.0.requests| && r.0.requests[..|s.requests|] == s.requests
      && (|s.logs| <= MAX_ENTRIES ==> |r.0.logs| <= MAX_ENTRIES)
  {
    var s1 := BitgetPlaced(s, Opposite(AsterSide(leg)), TRADE_AMOUNT, Some(BitgetEntryPrice(leg, b)), false, time, env.bitgetPlace);
    assert s1.requests[..|s.requests|] == s.requests;
    if !BitgetAccepted(Answer(env.bitgetPlace)) {
      AbortOutcome(s1, time, env, "Bitget order failed, positions closed");
      PrefixOfPrefix(s.requests, s1.requests, HedgedOnBitget(s, leg, b, time, env, show).0.requests);
    } else if !BitgetVerdict(env.bitgetFetch, 0) {
      AbortOutcome(s1, time, env, "Bitget order not filled, positions closed");
      PrefixOfPrefix(s.requests, s1.requests, HedgedOnBitget(s, leg, b, time, env, show).0.requests);
    }
  }

  /** A failed open keeps the counters and only appends to what was sent. */
  lemma AbortOutcome(s: BotState, time: string, env: OpenReplies, why: string)
    ensures var r := Aborted(s, time, env, why);
      && r.stats == s.stats
      && |s.requests| <= |r.requests| && r.requests[..|s.requests|] == s.requests
      && (|s.logs| <= MAX_ENTRIES ==> |r.logs| <= MAX_ENTRIES)
  {
    var r := ClosedAll(s, time, env.asterClose, env.bitgetClose);
    assert r.requests[..|s.requests|] == s.requests;
  }

  lemma PrefixOfPrefix<T>(a: seq<T>, b: seq<T>, c: seq<T>)
    requires |a| <= |b| <= |c| && b[..|a|] == a && c[..|b|] == b
    ensures c[..|a|] == a
  {
    assert c[..|a|] == c[..|b|][..|a|];
  }

  /** An open attempt completes exactly when both legs are accepted and
      filled. Only a completed open moves the counters (one trade, one
      `TRADE_AMOUNT`); it leaves Aster flagged on the leg's side and Bitget
      on the other, having sent just the two entry orders. Every attempt
      starts with the Aster fill-or-kill order and keeps the log bounded. */
  lemma OpenOutcome(s: BotState, leg: Leg, b: Book, time: string, env: OpenReplies, show: real -> string)
    ensures var r := AttemptOpen(s, leg, b, time, env, show);
      var entryOrder := AsterOrder(AsterOrderParams(AsterSide(leg), TRADE_AMOUNT, Some(AsterEntryPrice(leg, b)), false));
      && (r.1 <==> OpenSucceeds(env))
      && (r.1 ==> r.0.stats == s.stats.(totalTrades := s.stats.totalTrades + 1,
                                        totalAmount := s.stats.totalAmount + TRADE_AMOUNT))
      && (!r.1 ==> r.0.stats == s.stats)
      && (r.1 ==> r.0.asterPosition == (if leg == BuyAsterSellBitget then Long else Short)
                  && r.0.bitgetPosition == (if leg == BuyAsterSellBitget then Short else Long))
      && (r.1 ==> r.0.requests == s.requests + [entryOrder, BitgetOrder(BitgetOrderParams(
                    Opposite(AsterSide(leg)), TRADE_AMOUNT, Some(BitgetEntryPrice(leg, b)), false))])
      && |s.requests| < |r.0.requests| && r.0.requests[|s.requests|] == entryOrder
      && (|s.logs| <= MAX_ENTRIES ==> |r.0.logs| <= MAX_ENTRIES)
  {
    var s1 := AsterPlaced(s, AsterSide(leg), TRADE_AMOUNT, Some(AsterEntryPrice(leg, b)), false, time, env.asterPlace);
    if AsterAccepted(Answer(env.asterPlace)) && AsterVerdict(env.asterFetch, 0) {
      OpenedOutcome(s, s1, leg, b, time, env, show);
    } else {
      OpenAbortedOutcome(s, s1, leg, b, time, env, show);
    }
  }

  /** The path on which the Aster leg fills. */
  lemma OpenedOutcome(s: BotState, s1: BotState, leg: Leg, b: Book, time: string, env: OpenReplies, show: real -> string)
    requires s1 == AsterPlaced(s, AsterSide(leg), TRADE_AMOUNT, Some(AsterEntryPrice(leg, b)), false, time, env.asterPlace)
    requires AsterAccepted(Answer(env.asterPlace)) && AsterVerdict(env.asterFetch, 0)
    ensures var r := AttemptOpen(s, leg, b, time, env, show);
      var entryOrder := AsterOrder(AsterOrderParams(AsterSide(leg), TRADE_AMOUNT, Some(AsterEntryPrice(leg, b)), false));
      && (r.1 <==> OpenSucceeds(env))
      && (r.1 ==> r.0.stats == s.stats.(totalTrades := s.stats.totalTrades + 1,
                                        totalAmount := s.stats.totalAmount + TRADE_AMOUNT))
      && (!r.1 ==> r.0.stats == s.stats)
      && (r.1 ==> r.0.asterPosition == (if leg == BuyAsterSellBitget then Long else Short)
                  && r.0.bitgetPosition == (if leg == BuyAsterSellBitget then Short else Long))
      && (r.1 ==> r.0.requests == s.requests + [entryOrder, BitgetOrder(BitgetOrderParams(
                    Opposite(AsterSide(leg)), TRADE_AMOUNT, Some(BitgetEntryPrice(leg, b)), false))])
      && |s.requests| < |r.0.requests| && r.0.requests[|s.requests|] == entryOrder
      && (|s.logs| <= MAX_ENTRIES ==> |r.0.logs| <= MAX_ENTRIES)
  {
    HedgeOutcome(s1, leg, b, time, env, show);
    var r := HedgedOnBitget(s1, leg, b, time, env, show);
    assert AttemptOpen(s, leg, b, time, env, show) == r;
    assert r.0.requests[|s.requests|] == r.0.requests[..|s1.requests|][|s.requests|];
  }

  /** The paths on which the Aster leg is refused or does not fill. */
  lemma OpenAbortedOutcome(s: BotState, s1: BotState, leg: Leg, b: Book, time: string, env: OpenReplies, show: real -> string)
    requires s1 == AsterPlaced(s, AsterSide(leg), TRADE_AMOUNT, Some(AsterEntryPrice(leg, b)), false, time, env.asterPlace)
    requires !(AsterAccepted(Answer(env.asterPlace)) && AsterVerdict(env.asterFetch, 0))
    ensures var r := AttemptOpen(s, leg, b, time, env, show);
      && !r.1 && r.0.stats == s.stats
      && |s.requests| < |r.0.requests|
      && r.0.requests[|s.requests|] == AsterOrder(AsterOrderParams(AsterSide(leg), TRADE_AMOUNT, Some(AsterEntryPrice(leg, b)), false))
      && (|s.logs| <= MAX_ENTRIES ==> |r.0.logs| <= MAX_ENTRIES)
  {
    var why := if !AsterAccepted(Answer(env.asterPlace)) then "Aster order failed, positions closed"
               else "Aster order not filled, positions closed";
    assert AttemptOpen(s, leg, b, time, env, show) == (Aborted(s1, time, env, why), false);
    AbortOutcome(s1, time, env, why);
    var r := Aborted(s1, time, env, why);
    assert r.requests[|s.requests|] == r.requests[..|s1.requests|][|s.requests|];
  }

  /** The close rule decides alone whether a round while holding does
      anything; a close books the corrected profit, sends the closing orders
      for whatever is flagged, and clears both flags when both are accepted. */
  lemma CloseOutcome(s: BotState, h: Holding, b: Book, time: string, asterReply: Reply, bitgetReply: Reply,
                     fixed2: real -> string)
    ensures var r := AttemptClose(s, h, b, time, asterReply, bitgetReply, fixed2);
      && (r.1 <==> CloseDue(h, b))
      && (!r.1 ==> r.0 == s)
      && (r.1 ==> r.0.stats == s.stats.(totalProfit := s.stats.totalProfit + Profit(h, b)))
      && (r.1 ==> r.0.requests == s.requests + CloseRequests(s.asterPosition, s.bitgetPosition))
      && (r.1 && AsterAccepted(Answer(asterReply)) && BitgetAccepted(Answer(bitgetReply)) ==>
            r.0.asterPosition == NoPosition && r.0.bitgetPosition == NoPosition)
      && (|s.logs| <= MAX_ENTRIES ==> |r.0.logs| <= MAX_ENTRIES)
  {
  }

  /** A hedge that opens and then closes with every order accepted leaves no
      position flagged on either exchange, and counts one trade. */
  lemma RoundTripLeavesNoPosition(s: BotState, leg: Leg, entry: Book, b: Book, time: string, env: OpenReplies,
                                  show: real -> string, fixed2: real -> string)
    requires OpenSucceeds(env)
    requires CloseDue(EnteredAt(leg, entry), b)
    requires AsterAccepted(Answer(env.asterClose)) && BitgetAccepted(Answer(env.bitgetClose))
    ensures var entered := AttemptOpen(s, leg, entry, time, env, show).0;
      var closed := AttemptClose(entered, EnteredAt(leg, entry), b, time, env.asterClose, env.bitgetClose, fixed2).0;
      && closed.asterPosition == NoPosition && closed.bitgetPosition == NoPosition
      && closed.stats.totalTrades == s.stats.totalTrades + 1
      && closed.requests[|entered.requests|..] == CloseRequests(entered.asterPosition, entered.bitgetPosition)
      && |closed.requests| == |s.requests| + 4
  {
    var entered := AttemptOpen(s, leg, entry, time, env, show).0;
    OpenOutcome(s, leg, entry, time, env, show);
    CloseOutcome(entered, EnteredAt(leg, entry), b, time, env.asterClose, env.bitgetClose, fixed2);
    var closed := AttemptClose(entered, EnteredAt(leg, entry), b, time, env.asterClose, env.bitgetClose, fixed2).0;
    assert closed.requests == entered.requests + CloseRequests(entered.asterPosition, entered.bitgetPosition);
  }

  /** The script's module globals. */
  class Bot {
    var logs: seq<TradeLogItem>
    var stats: Stats
    var asterPosition: PositionFlag
    var bitgetPosition: PositionFlag
    var requests: seq<OrderRequest>

    function State(): BotState
      reads this
    {
      BotState(logs, stats, asterPosition, bitgetPosition, requests)
    }

    ghost predicate Valid()
      reads this
    {
      |logs| <= MAX_ENTRIES
    }

    constructor()
      ensures State() == BotState([], ZERO_STATS, NoPosition, NoPosition, []) && Valid()
    {
      logs := [];
      stats := ZERO_STATS;
      asterPosition := NoPosition;
      bitgetPosition := NoPosition;
      requests := [];
    }

    /** `logEvent` */
    method LogEvent(time: string, kind: string, detail: string)
      modifies this`logs
      ensures State() == Logged(old(State()), time, kind, detail)
      ensures old(Valid()) ==> Valid()
    {
      logs := logs + [TradeLogItem(time, kind, detail)];
      if |logs| > MAX_ENTRIES {
        logs := logs[1..];
      }
    }

    /** `resetStats`: zero counters and an empty log; the flags stay. */
    method ResetStats()
      modifies this`stats, this`logs
      ensures State() == old(State()).(stats := ZERO_STATS, logs := [])
      ensures Valid()
    {
      stats := ZERO_STATS;
      logs := [];
    }

    /** `placeAsterOrder` */
    method PlaceAsterOrder(side: Side, amount: real, price: Option<real>, reduceOnly: bool, time: string, reply: Reply)
      returns (order: Json)
      modifies this`requests, this`logs, this`asterPosition
      ensures order == Answer(reply)
      ensures State() == AsterPlaced(old(State()), side, amount, price, reduceOnly, time, reply)
    {
      requests := requests + [AsterOrder(AsterOrderParams(side, amount, price, reduceOnly))];
      if reply.Threw? {
        LogEvent(time, "error", ASTER_FAILED + reply.error);
        return Null;
      }
      order := reply.value;
      if !reduceOnly && AsterAccepted(order) {
        asterPosition := if side == Buy then Long else Short;
      }
      if reduceOnly && AsterAccepted(order) {
        asterPosition := NoPosition;
      }
    }

    /** `placeBitgetOrder` */
    method PlaceBitgetOrder(side: Side, amount: real, price: Option<real>, reduceOnly: bool, time: string, reply: Reply)
      returns (order: Json)
      modifies this`requests, this`logs, this`bitgetPosition
      ensures order == Answer(reply)
      ensures State() == BitgetPlaced(old(State()), side, amount, price, reduceOnly, time, reply)
    {
      requests := requests + [BitgetOrder(BitgetOrderParams(side, amount, price, reduceOnly))];
      if reply.Threw? {
        LogEvent(time, "error", BITGET_FAILED + reply.error);
        return Null;
      }
      order := reply.value;
      if !reduceOnly && BitgetAccepted(order) {
        bitgetPosition := if side == Buy then Long else Short;
      }
      if reduceOnly && BitgetAccepted(order) {
        bitgetPosition := NoPosition;
      }
    }

    /** `closeAllPositions` */
    method CloseAllPositions(time: string, asterReply: Reply, bitgetReply: Reply)
      modifies this`requests, this`logs, this`asterPosition, this`bitgetPosition
      ensures State() == ClosedAll(old(State()), time, asterReply, bitgetReply)
    {
      var asterClose := ClosingSide(asterPosition);
      if asterClose.Some? {
        var _ := PlaceAsterOrder(asterClose.value, TRADE_AMOUNT, None, true, time, asterReply);
      }
      ghost var afterAster := State();
      var bitgetClose := ClosingSide(bitgetPosition);
      if bitgetClose.Some? {
        var _ := PlaceBitgetOrder(bitgetClose.value, TRADE_AMOUNT, None, true, time, bitgetReply);
      }
      assert State() == match ClosingSide(afterAster.bitgetPosition)
        case None => afterAster
        case Some(side) => BitgetPlaced(afterAster, side, TRADE_AMOUNT, None, true, time, bitgetReply);
    }

    /** The failure exit of an open attempt. */
    method Abort(time: string, env: OpenReplies, why: string)
      modifies this`requests, this`logs, this`asterPosition, this`bitgetPosition
      ensures State() == Aborted(old(State()), time, env, why)
    {
      CloseAllPositions(time, env.asterClose, env.bitgetClose);
      LogEvent(time, "error", why);
    }

    /** The body of the `diff1`/`diff2` branches of `startArbBot`. */
    method OpenPosition(leg: Leg, b: Book, time: string, env: OpenReplies, show: real -> string) returns (entered: bool)
      modifies this`requests, this`logs, this`asterPosition, this`bitgetPosition, this`stats
      ensures (State(), entered) == AttemptOpen(old(State()), leg, b, time, env, show)
    {
      var side := AsterSide(leg);
      var asterOrder := PlaceAsterOrder(side, TRADE_AMOUNT, Some(AsterEntryPrice(leg, b)), false, time, env.asterPlace);
      if !AsterAccepted(asterOrder) {
        Abort(time, env, "Aster order failed, positions closed");
        return false;
      }
      var asterFilled := WaitAsterFilled(env.asterFetch);
      if !asterFilled {
        Abort(time, env, "Aster order not filled, positions closed");
        return false;
      }
      entered := HedgeOnBitget(leg, b, time, env, show);
    }

    /** The Bitget half of the entry branches. */
    method HedgeOnBitget(leg: Leg, b: Book, time: string, env: OpenReplies, show: real -> string) returns (entered: bool)
      modifies this`requests, this`logs, this`asterPosition, this`bitgetPosition, this`stats
      ensures (State(), entered) == HedgedOnBitget(old(State()), leg, b, time, env, show)
    {
      var bitgetOrder := PlaceBitgetOrder(Opposite(AsterSide(leg)), TRADE_AMOUNT, Some(BitgetEntryPrice(leg, b)), false,
                                          time, env.bitgetPlace);
      if !BitgetAccepted(bitgetOrder) {
        Abort(time, env, "Bitget order failed, positions closed");
        return false;
      }
      var bitgetFilled := WaitBitgetFilled(env.bitgetFetch);
      if !bitgetFilled {
        Abort(time, env, "Bitget order not filled, positions closed");
        return false;
      }
      RecordOpen(leg, b, time, show);
      return true;
    }

    /** `stats.totalTrades++`, `stats.totalAmount += TRADE_AMOUNT`, and the open log line. */
    method RecordOpen(leg: Leg, b: Book, time: string, show: real -> string)
      modifies this`logs, this`stats
      ensures State() == Recorded(old(State()), leg, b, time, show)
    {
      stats := stats.(totalTrades := stats.totalTrades + 1);
      stats := stats.(totalAmount := stats.totalAmount + TRADE_AMOUNT);
      LogEvent(time, "open", OpenDetail(leg, b, show));
    }

    /** The holding branch of `startArbBot`. */
    method ClosePosition(h: Holding, b: Book, time: string, asterReply: Reply, bitgetReply: Reply,
                         fixed2: real -> string) returns (closed: bool)
      modifies this`requests, this`logs, this`asterPosition, this`bitgetPosition, this`stats
      ensures (State(), closed) == AttemptClose(old(State()), h, b, time, asterReply, bitgetReply, fixed2)
    {
      if !CloseDue(h, b) {
        return false;
      }
      Settle(h, b, time, asterReply, bitgetReply, fixed2);
      return true;
    }

    /** The body of the close branch. */
    method Settle(h: Holding, b: Book, time: string, asterReply: Reply, bitgetReply: Reply, fixed2: real -> string)
      modifies this`requests, this`logs, this`asterPosition, this`bitgetPosition, this`stats
      ensures State() == Settled(old(State()), h, b, time, asterReply, bitgetReply, fixed2)
    {
      var detail := CloseDetail(h, b, fixed2);
      stats := stats.(totalProfit := stats.totalProfit + Profit(h, b));
      ghost var booked := State();
      assert booked == old(State()).(stats := old(State()).stats.(totalProfit := old(stats).totalProfit + Profit(h, b)));
      CloseAllPositions(time, asterReply, bitgetReply);
      ghost var closed := State();
      LogEvent(time, "close", detail);
      assert State() == Logged(closed, time, "close", detail);
    }

    /** One round of the main loop of `startArbBot`: without both books
        nothing happens; without a hedge the entry rule may open one; with a
        hedge the close rule may close it. */
    method Round(holding: Option<Holding>, books: Option<Book>, time: string, env: OpenReplies,
                 show: real -> string, fixed2: real -> string) returns (next: Option<Holding>)
      modifies this`requests, this`logs, this`asterPosition, this`bitgetPosition, this`stats
      ensures books.None? ==> next == holding && State() == old(State())
      ensures books.Some? && holding.None? && Entry(books.value).None? ==> next.None? && State() == old(State())
      ensures books.Some? && holding.None? && Entry(books.value).Some? ==>
        var leg := Entry(books.value).value;
        (State(), next.Some?) == AttemptOpen(old(State()), leg, books.value, time, env, show)
        && (next.Some? ==> next.value == EnteredAt(leg, books.value))
      ensures books.Some? && holding.Some? ==>
        (State(), next.None?) == AttemptClose(old(State()), holding.value, books.value, time, env.asterClose,
                                              env.bitgetClose, fixed2)
        && (next.Some? ==> next == holding)
    {
      if books.None? {
        return holding;
      }
      var b := books.value;
      if holding.None? {
        var leg := Entry(b);
        if leg.None? {
          return None;
        }
        var entered := OpenPosition(leg.value, b, time, env, show);
        next := if entered then Some(EnteredAt(leg.value, b)) else None;
      } else {
        var closed := ClosePosition(holding.value, b, time, env.asterClose, env.bitgetClose, fixed2);
        next := if closed then None else holding;
      }
    }
  }
}
