/**
 * The exchange client's session state (class `Aster` in exchanges/aster.ts):
 * its WebSocket, subscriptions, timers, and the in-memory copies of the
 * account, open orders and candles that pushes and polls keep current.
 *
 * Replies from the exchange (REST and WebSocket) arrive as method parameters;
 * the socket's writes are recorded in `sent`; each timer is an armed flag that
 * a `Fire...` method consumes.
 */
module AsterClient {
  import opened Common
  import opened Normalize
  import opened Reconcile

  datatype SocketState = Connecting | Open | Closing | Closed

  /** A text frame written to the socket: `pong`, or a JSON control message
      `{params, id, method}`. */
  datatype Frame = Pong | Control(verb: string, params: seq<Json>, id: int)

  /** `{ params: [channel], id }` */
  datatype SubscribeParams = SubscribeParams(params: seq<Json>, id: int)

  /** `params.params[0]` */
  function ChannelOf(p: SubscribeParams): Json
  {
    if |p.params| > 0 then p.params[0] else Undefined
  }

  const MAX_INIT_RETRIES: nat := 5
  const USER_DATA_SUBSCRIBE_ID: int := 99

  const ACCOUNT_UPDATE: Json := Str("ACCOUNT_UPDATE")
  const ORDER_TRADE_UPDATE: Json := Str("ORDER_TRADE_UPDATE")
  const DEPTH_UPDATE: Json := Str("depthUpdate")
  const KLINE: Json := Str("kline")

  /** The characters `String.prototype.trim` strips: the white-space and
      line-terminator code points of ECMAScript (tab, line feed, vertical tab,
      form feed, carriage return, space, no-break space, the byte-order mark
      and the space separators of Unicode). */
  predicate IsSpace(c: char)
  {
    c == '\t' || c == '\n' || c == '\U{000B}' || c == '\U{000C}' || c == '\r' || c == ' '
    || c == '\U{00A0}' || c == '\U{1680}' || '\U{2000}' <= c <= '\U{200A}'
    || c == '\U{2028}' || c == '\U{2029}' || c == '\U{202F}' || c == '\U{205F}'
    || c == '\U{3000}' || c == '\U{FEFF}'
  }

  function TrimStart(s: string): (r: string)
    ensures |r| <= |s| && r == s[|s| - |r|..]
    ensures r == [] || !IsSpace(r[0])
  {
    if s != [] && IsSpace(s[0]) then TrimStart(s[1..]) else s
  }

  function TrimEnd(s: string): (r: string)
    ensures |r| <= |s| && r == s[..|r|]
    ensures r == [] || !IsSpace(r[|r| - 1])
  {
    if s != [] && IsSpace(s[|s| - 1]) then TrimEnd(s[..|s| - 1]) else s
  }

  function Trim(s: string): string
  {
    TrimEnd(TrimStart(s))
  }

  lemma UnionUpdate(a: Table, b: Table, k: Json, v: Entry)
    ensures a + b[k := v] == (a + b)[k := v]
  {
  }

  lemma UnionCovered(a: Table, b: Table)
    requires a.Keys <= b.Keys
    ensures a + b == b
  {
  }

  /** The exchange data the client caches and pushes keep current. */
  datatype Caches = Caches(
    accountSnapshot: Option<Account>, openOrders: Table,
    lastDepthData: Option<Obj>, lastTickerData: Option<Ticker>, lastKlines: seq<Kline>)

  /** What a parsed push does to the caches, routed by its event type `e`. A
      push whose order or candle is missing throws inside its handler and
      changes nothing. */
  function Dispatched(c: Caches, data: Obj): (r: Caches)
    ensures Get(data, "e") != ACCOUNT_UPDATE ==> r.accountSnapshot == c.accountSnapshot
    ensures Get(data, "e") != ORDER_TRADE_UPDATE ==> r.openOrders == c.openOrders
    ensures Get(data, "e") != DEPTH_UPDATE ==> r.lastDepthData == c.lastDepthData
    ensures Get(data, "e") != MINI_TICKER_EVENT ==> r.lastTickerData == c.lastTickerData
    ensures Get(data, "e") != KLINE ==> r.lastKlines == c.lastKlines
    ensures c.accountSnapshot.None? ==> r.accountSnapshot.None?
  {
    var e := Get(data, "e");
    if e == ACCOUNT_UPDATE then
      c.(accountSnapshot := if c.accountSnapshot.Some? then Some(MergeAccount(c.accountSnapshot.value, data)) else None)
    else if e == ORDER_TRADE_UPDATE then
      match PropsOf(Get(data, "o"))
      case Some(o) => c.(openOrders := OrderUpdate(c.openOrders, FormatOrder(o, data)))
      case None => c
    else if e == DEPTH_UPDATE then c.(lastDepthData := Some(data))
    else if e == MINI_TICKER_EVENT then c.(lastTickerData := Some(FormatTicker(data)))
    else if e == KLINE then
      match PropsOf(Get(data, "k"))
      case Some(k) => c.(lastKlines := KlineUpsert(c.lastKlines, FormatWsKline(k, None)))
      case None => c
    else c
  }

  /** No push grows the candle window past 100. */
  lemma DispatchKeepsWindow(c: Caches, data: Obj)
    requires |c.lastKlines| <= MAX_KLINES
    ensures |Dispatched(c, data).lastKlines| <= MAX_KLINES
  {
    if Get(data, "e") == KLINE && PropsOf(Get(data, "k")).Some? {
      KlineWindowBounded(c.lastKlines, FormatWsKline(PropsOf(Get(data, "k")).value, None));
    }
  }

  /** True for trimmed text `onmessage` hands to `JSON.parse`. */
  predicate LooksLikeJson(t: string)
  {
    t != [] && (t[0] == '{' || t[0] == '[')
  }

  /** The open-orders reply. The HTTP status is never checked, so a rejected
      request still yields its JSON body (an object `{code, msg}`), which is
      `NotAList`; `NoReply` is a request that threw (network failure or a body
      that is not JSON). */
  datatype OrdersReply = Listing(list: seq<Obj>) | NotAList | NoReply

  /** How `onmessage` reads a text frame once trimmed. */
  datatype TextKind = PingText | JsonText(t: string) | OtherText

  function Classify(text: string): (k: TextKind)
    ensures k == PingText <==> Trim(text) == "ping"
    ensures k.JsonText? <==> Trim(text) != "ping" && LooksLikeJson(Trim(text))
    ensures k.JsonText? ==> k.t == Trim(text)
  {
    var t := Trim(text);
    if t == "ping" then PingText
    else if LooksLikeJson(t) then JsonText(t)
    else OtherText
  }

  /** What a text frame does to the caches: only parsed object pushes reach
      the dispatcher. */
  function TextReceived(c: Caches, k: TextKind, parse: string -> Option<Json>): (r: Caches)
    ensures !k.JsonText? ==> r == c
  {
    if k.JsonText? && parse(k.t).Some? && PropsOf(parse(k.t).value).Some? then
      Dispatched(c, PropsOf(parse(k.t).value).value)
    else c
  }

  /** `channels` lists each member of `members` exactly once. */
  ghost predicate Enumerates(channels: seq<Json>, members: set<Json>)
  {
    |channels| == |members|
    && (forall c :: c in channels <==> c in members)
    && (forall i, j :: 0 <= i < j < |channels| ==> channels[i] != channels[j])
  }

  lemma EnumeratesExtend(channels: seq<Json>, members: set<Json>, remaining: set<Json>, c: Json)
    requires remaining <= members && c in remaining
    requires Enumerates(channels, members - remaining)
    ensures Enumerates(channels + [c], members - (remaining - {c}))
  {
    assert members - (remaining - {c}) == (members - remaining) + {c};
  }

  /** The iteration order of a set: some sequence of its members, each once. */
  method Enumerate(members: set<Json>) returns (channels: seq<Json>)
    ensures Enumerates(channels, members)
  {
    var remaining := members;
    channels := [];
    while remaining != {}
      invariant remaining <= members
      invariant Enumerates(channels, members - remaining)
      decreases |remaining|
    {
      var c :| c in remaining;
      EnumeratesExtend(channels, members, remaining, c);
      channels := channels + [c];
      remaining := remaining - {c};
    }
  }

  /** The SUBSCRIBE frames for `channels`, the k-th with request id `randomId(k)`. */
  function SubscribeFrames(channels: seq<Json>, randomId: nat -> int): (frames: seq<Frame>)
    ensures |frames| == |channels|
    ensures forall i :: 0 <= i < |frames| ==> frames[i] == Control("SUBSCRIBE", [channels[i]], randomId(i))
  {
    seq(|channels|, i requires 0 <= i < |channels| => Control("SUBSCRIBE", [channels[i]], randomId(i)))
  }

  lemma SubscribeFramesExtend(written: seq<Frame>, channels: seq<Json>, c: Json, randomId: nat -> int)
    ensures written + SubscribeFrames(channels + [c], randomId)
         == written + SubscribeFrames(channels, randomId) + [Control("SUBSCRIBE", [c], randomId(|channels|))]
  {
    assert SubscribeFrames(channels + [c], randomId)[..|channels|] == SubscribeFrames(channels, randomId);
  }

  class Aster {
    var socket: SocketState
    /** Frames written to the socket, oldest first. */
    var sent: seq<Frame>
    /** Frames waiting on the current socket's `open` listener. */
    var queued: seq<Frame>
    var subscribedChannels: set<Json>
    /** `null` until the user-data stream is subscribed. */
    var listenKeyChannel: Json
    var pongArmed: bool
    var keepAliveArmed: bool
    var reconnectArmed: bool
    var pollArmed: bool
    /** Armed snapshot retries, by the retry number each will run with. */
    var initRetries: seq<nat>
    var accountSnapshot: Option<Account>
    var openOrders: Table
    var lastKlines: seq<Kline>
    var lastDepthData: Option<Obj>
    var lastTickerData: Option<Ticker>

    /** The candle window never holds more than 100 candles. */
    predicate Valid()
      reads this
    {
      |lastKlines| <= MAX_KLINES
    }

    /** The cached exchange data. */
    function Cached(): Caches
      reads this
    {
      Caches(accountSnapshot, openOrders, lastDepthData, lastTickerData, lastKlines)
    }

    /** `new Aster(...)`: opens the socket and starts the 10-second poll. */
    constructor()
      ensures Valid()
      ensures socket == Connecting && sent == [] && queued == []
      ensures subscribedChannels == {} && listenKeyChannel == Null
      ensures !pongArmed && !keepAliveArmed && !reconnectArmed && pollArmed && initRetries == []
      ensures accountSnapshot == None && openOrders == map[] && lastKlines == []
      ensures lastDepthData == None && lastTickerData == None
    {
      socket := Connecting;
      sent := [];
      queued := [];
      subscribedChannels := {};
      listenKeyChannel := Null;
      pongArmed := false;
      keepAliveArmed := false;
      reconnectArmed := false;
      pollArmed := true;
      initRetries := [];
      accountSnapshot := None;
      openOrders := map[];
      lastKlines := [];
      lastDepthData := None;
      lastTickerData := None;
    }

    /** Writes `f` now when the socket is open, else once it opens. */
    method Emit(f: Frame)
      modifies this`sent, this`queued
      ensures socket == Open ==> sent == old(sent) + [f] && queued == old(queued)
      ensures socket != Open ==> queued == old(queued) + [f] && sent == old(sent)
    {
      if socket == Open {
        sent := sent + [f];
      } else {
        queued := queued + [f];
      }
    }

    /** `subscribe`: the channel joins the set unless it is the listen-key
        channel, and a SUBSCRIBE frame goes out. */
    method Subscribe(p: SubscribeParams)
      modifies this`subscribedChannels, this`sent, this`queued
      ensures subscribedChannels ==
        old(subscribedChannels) + (if !Truthy(listenKeyChannel) || ChannelOf(p) != listenKeyChannel then {ChannelOf(p)} else {})
      ensures socket == Open ==> sent == old(sent) + [Control("SUBSCRIBE", p.params, p.id)] && queued == old(queued)
      ensures socket != Open ==> queued == old(queued) + [Control("SUBSCRIBE", p.params, p.id)] && sent == old(sent)
    {
      var channel := ChannelOf(p);
      if !Truthy(listenKeyChannel) || channel != listenKeyChannel {
        subscribedChannels := subscribedChannels + {channel};
      }
      Emit(Control("SUBSCRIBE", p.params, p.id));
    }

    /** `unsubscribe`: the channel leaves the set and an UNSUBSCRIBE frame goes out. */
    method Unsubscribe(p: SubscribeParams)
      modifies this`subscribedChannels, this`sent, this`queued
      ensures subscribedChannels == old(subscribedChannels) - {ChannelOf(p)}
      ensures socket == Open ==> sent == old(sent) + [Control("UNSUBSCRIBE", p.params, p.id)] && queued == old(queued)
      ensures socket != Open ==> queued == old(queued) + [Control("UNSUBSCRIBE", p.params, p.id)] && sent == old(sent)
    {
      var channel := ChannelOf(p);
      if channel in subscribedChannels {
        subscribedChannels := subscribedChannels - {channel};
      }
      Emit(Control("UNSUBSCRIBE", p.params, p.id));
    }

    /** The resubscription loop of `onopen`: one SUBSCRIBE per member, the set
        itself unchanged. `randomId(k)` stands for the k-th random request id. */
    method Resubscribe(randomId: nat -> int) returns (channels: seq<Json>, frames: seq<Frame>)
      modifies this`subscribedChannels, this`sent, this`queued
      ensures subscribedChannels == old(subscribedChannels)
      ensures Enumerates(channels, old(subscribedChannels))
      ensures frames == SubscribeFrames(channels, randomId)
      ensures socket == Open ==> sent == old(sent) + frames && queued == old(queued)
      ensures socket != Open ==> queued == old(queued) + frames && sent == old(sent)
    {
      channels := Enumerate(subscribedChannels);
      SubscribeEach(channels, randomId);
      frames := SubscribeFrames(channels, randomId);
    }

    /** Subscribes to each of `channels`, all of them already members, in order. */
    method SubscribeEach(channels: seq<Json>, randomId: nat -> int)
      modifies this`subscribedChannels, this`sent, this`queued
      requires forall k :: 0 <= k < |channels| ==> channels[k] in subscribedChannels
      ensures subscribedChannels == old(subscribedChannels)
      ensures socket == Open ==> sent == old(sent) + SubscribeFrames(channels, randomId) && queued == old(queued)
      ensures socket != Open ==> queued == old(queued) + SubscribeFrames(channels, randomId) && sent == old(sent)
    {
      ghost var open := socket == Open;
      ghost var outbox := if open then old(sent) else old(queued);
      for k := 0 to |channels|
        invariant subscribedChannels == old(subscribedChannels)
        invariant (if open then sent else queued) == outbox + SubscribeFrames(channels[..k], randomId)
        invariant open ==> queued == old(queued)
        invariant !open ==> sent == old(sent)
      {
        var c := channels[k];
        assert ChannelOf(SubscribeParams([c], randomId(k))) == c;
        assert subscribedChannels + {c} == subscribedChannels;
        Subscribe(SubscribeParams([c], randomId(k)));
        SubscribeFramesExtend(outbox, channels[..k], c, randomId);
        assert channels[..k + 1] == channels[..k] + [c];
      }
      assert channels[..|channels|] == channels;
    }

    /** `subscribeUserData` with the listen key the exchange issued. */
    method SubscribeUserData(listenKey: Json)
      modifies this`listenKeyChannel, this`subscribedChannels, this`sent, this`queued
      ensures listenKeyChannel == listenKey
      ensures subscribedChannels == old(subscribedChannels) + (if Truthy(listenKey) then {} else {listenKey})
      ensures socket == Open ==> sent == old(sent) + [Control("SUBSCRIBE", [listenKey], USER_DATA_SUBSCRIBE_ID)] && queued == old(queued)
      ensures socket != Open ==> queued == old(queued) + [Control("SUBSCRIBE", [listenKey], USER_DATA_SUBSCRIBE_ID)] && sent == old(sent)
    {
      listenKeyChannel := listenKey;
      Subscribe(SubscribeParams([listenKey], USER_DATA_SUBSCRIBE_ID));
    }

    /** The socket's `open` event: listeners queued on it send their frames. */
    method Opened()
      requires socket == Connecting
      modifies this`socket, this`sent, this`queued
      ensures socket == Open && sent == old(sent) + old(queued) && queued == []
    {
      socket := Open;
      sent := sent + queued;
      queued := [];
    }

    /** `onopen`: after the socket opens, rebuild the snapshot, resubscribe every
        channel (in the order `channels` returns), subscribe the user-data
        stream and arm the heartbeat and the listen-key renewal. `listenKey` is
        `None` when the listen-key request fails, and the handler then closes
        the socket. */
    method OnOpen(account: Option<Account>, orders: OrdersReply, listenKey: Option<Json>, randomId: nat -> int)
      returns (channels: seq<Json>)
      requires socket == Connecting
      modifies this`socket, this`sent, this`queued, this`accountSnapshot, this`openOrders, this`initRetries
      modifies this`subscribedChannels, this`listenKeyChannel, this`pongArmed, this`keepAliveArmed
      ensures Enumerates(channels, old(subscribedChannels))
      ensures queued == []
      ensures sent == old(sent) + old(queued) + SubscribeFrames(channels, randomId)
        + (if listenKey.Some? then [Control("SUBSCRIBE", [listenKey.value], USER_DATA_SUBSCRIBE_ID)] else [])
      ensures accountSnapshot == if account.Some? then account else old(accountSnapshot)
      ensures openOrders ==
        if account.None? || orders.NoReply? then old(openOrders) else if orders.Listing? then ListTable(orders.list) else map[]
      ensures initRetries == if account.Some? && orders.Listing? then old(initRetries) else old(initRetries) + [1]
      ensures listenKey.Some? ==> socket == Open && pongArmed && keepAliveArmed && listenKeyChannel == listenKey.value
      ensures listenKey.Some? ==>
        subscribedChannels == old(subscribedChannels) + (if Truthy(listenKey.value) then {} else {listenKey.value})
      ensures listenKey.None? ==>
        (socket == Closing && subscribedChannels == old(subscribedChannels) && listenKeyChannel == old(listenKeyChannel)
         && pongArmed == old(pongArmed) && keepAliveArmed == old(keepAliveArmed))
    {
      channels := Reopen(account, orders, randomId);
      if listenKey.Some? {
        SubscribeUserData(listenKey.value);
        pongArmed := true;
        keepAliveArmed := true;
      } else {
        socket := Closing;
      }
    }

    /** The first steps of `onopen`: the queued frames go out, the snapshot is
        rebuilt and every channel is subscribed again. */
    method Reopen(account: Option<Account>, orders: OrdersReply, randomId: nat -> int) returns (channels: seq<Json>)
      requires socket == Connecting
      modifies this`socket, this`sent, this`queued, this`accountSnapshot, this`openOrders, this`initRetries
      modifies this`subscribedChannels
      ensures socket == Open && subscribedChannels == old(subscribedChannels)
      ensures Enumerates(channels, old(subscribedChannels))
      ensures sent == old(sent) + old(queued) + SubscribeFrames(channels, randomId) && queued == []
      ensures accountSnapshot == if account.Some? then account else old(accountSnapshot)
      ensures openOrders ==
        if account.None? || orders.NoReply? then old(openOrders) else if orders.Listing? then ListTable(orders.list) else map[]
      ensures initRetries == if account.Some? && orders.Listing? then old(initRetries) else old(initRetries) + [1]
    {
      Opened();
      InitAccountSnapshot(0, account, orders);
      var frames;
      channels, frames := Resubscribe(randomId);
    }

    /** `onclose`: both intervals are cleared and a reconnect is armed unless
        one already is. */
    method OnClose()
      modifies this`socket, this`pongArmed, this`keepAliveArmed, this`reconnectArmed
      ensures socket == Closed && !pongArmed && !keepAliveArmed && reconnectArmed
    {
      socket := Closed;
      pongArmed := false;
      keepAliveArmed := false;
      if !reconnectArmed {
        reconnectArmed := true;
      }
    }

    /** `close()`: closes the socket and clears the intervals and the poll. It
        leaves any armed reconnect in place, and the `onclose` it triggers arms
        one (see `OnClose`), so the client reconnects after a close. */
    method Close()
      modifies this`socket, this`pongArmed, this`keepAliveArmed, this`pollArmed
      ensures socket == (if old(socket) == Connecting || old(socket) == Open then Closing else old(socket))
      ensures !pongArmed && !keepAliveArmed && !pollArmed
    {
      if socket == Connecting || socket == Open {
        socket := Closing;
      }
      pongArmed := false;
      keepAliveArmed := false;
      pollArmed := false;
    }

    /** The reconnect timer fires: a new socket, without the old one's listeners. */
    method FireReconnect()
      modifies this`socket, this`queued, this`reconnectArmed
      ensures old(reconnectArmed) ==> socket == Connecting && queued == [] && !reconnectArmed
      ensures !old(reconnectArmed) ==> socket == old(socket) && queued == old(queued) && !reconnectArmed
    {
      if reconnectArmed {
        reconnectArmed := false;
        socket := Connecting;
        queued := [];
      }
    }

    /** The 4-minute heartbeat: a `pong` while the socket is open. */
    method FirePong()
      modifies this`sent
      ensures sent == if pongArmed && socket == Open then old(sent) + [Pong] else old(sent)
    {
      if pongArmed && socket == Open {
        sent := sent + [Pong];
      }
    }

    /** A failed snapshot attempt: retry later, at most five times, then close. */
    method SnapshotFailed(retry: nat)
      modifies this`initRetries, this`socket
      ensures retry < MAX_INIT_RETRIES ==> initRetries == old(initRetries) + [retry + 1] && socket == old(socket)
      ensures retry >= MAX_INIT_RETRIES ==>
        (initRetries == old(initRetries) && socket == (if old(socket) == Open then Closing else old(socket)))
    {
      if retry < MAX_INIT_RETRIES {
        initRetries := initRetries + [retry + 1];
      } else if socket == Open {
        socket := Closing;
      }
    }

    /** `initAccountSnapshot(retry)`: the account reply is stored first; the
        table is then cleared and refilled from the open-orders reply. An
        account of `None` is a failed request. A reply that is not a list
        leaves the table cleared and throws, which arms a retry. */
    method InitAccountSnapshot(retry: nat, account: Option<Account>, orders: OrdersReply)
      modifies this`accountSnapshot, this`openOrders, this`initRetries, this`socket
      ensures accountSnapshot == if account.Some? then account else old(accountSnapshot)
      ensures account.Some? && orders.Listing? ==>
        (openOrders == ListTable(orders.list) && initRetries == old(initRetries) && socket == old(socket))
      ensures account.Some? && orders.NotAList? ==> openOrders == map[]
      ensures account.None? || orders.NoReply? ==> openOrders == old(openOrders)
      ensures (account.None? || !orders.Listing?) && retry < MAX_INIT_RETRIES ==> initRetries == old(initRetries) + [retry + 1]
      ensures retry < MAX_INIT_RETRIES ==> socket == old(socket)
      ensures (account.None? || !orders.Listing?) && retry >= MAX_INIT_RETRIES ==>
        (initRetries == old(initRetries) && socket == (if old(socket) == Open then Closing else old(socket)))
    {
      if account.None? {
        SnapshotFailed(retry);
        return;
      }
      accountSnapshot := account;
      if orders.NoReply? {
        SnapshotFailed(retry);
        return;
      }
      if orders.NotAList? {
        openOrders := map[];
        SnapshotFailed(retry);
        return;
      }
      var list := orders.list;
      var table: Table := map[];
      var i := 0;
      while i < |list|
        invariant 0 <= i <= |list|
        invariant table == ListTable(list[..i])
      {
        table := table[Get(list[i], "orderId") := Listed(list[i])];
        i := i + 1;
        assert list[..i][..i - 1] == list[..i - 1];
      }
      assert list[..|list|] == list;
      openOrders := table;
    }

    /** The earliest armed retry fires. */
    method FireInitRetry(account: Option<Account>, orders: OrdersReply)
      modifies this`accountSnapshot, this`openOrders, this`initRetries, this`socket
      ensures old(initRetries) == [] ==>
        (initRetries == [] && openOrders == old(openOrders) && accountSnapshot == old(accountSnapshot) && socket == old(socket))
      ensures old(initRetries) != [] ==> accountSnapshot == if account.Some? then account else old(accountSnapshot)
      ensures old(initRetries) != [] && account.Some? && orders.Listing? ==>
        (openOrders == ListTable(orders.list) && initRetries == old(initRetries)[1..] && socket == old(socket))
      ensures old(initRetries) != [] && account.Some? && orders.NotAList? ==> openOrders == map[]
      ensures old(initRetries) != [] && (account.None? || orders.NoReply?) ==> openOrders == old(openOrders)
      ensures old(initRetries) != [] && (account.None? || !orders.Listing?) && old(initRetries)[0] < MAX_INIT_RETRIES ==>
        (initRetries == old(initRetries)[1..] + [old(initRetries)[0] + 1] && socket == old(socket))
      ensures old(initRetries) != [] && (account.None? || !orders.Listing?) && old(initRetries)[0] >= MAX_INIT_RETRIES ==>
        (initRetries == old(initRetries)[1..] && socket == (if old(socket) == Open then Closing else old(socket)))
    {
      if initRetries != [] {
        var retry := initRetries[0];
        initRetries := initRetries[1..];
        InitAccountSnapshot(retry, account, orders);
      }
    }

    /** `mergeAccountUpdate`: with a snapshot, each balance entry and then each
        position entry is written into the first matching asset or position. */
    method MergeAccountUpdate(update: Obj)
      modifies this`accountSnapshot
      ensures accountSnapshot == if old(accountSnapshot).Some? then Some(MergeAccount(old(accountSnapshot).value, update)) else None
    {
      if accountSnapshot.None? {
        return;
      }
      var acct := accountSnapshot.value;
      var assets, ok := acct.assets, true;
      var balances := PushArray(update, "B");
      if balances.Some? {
        assets, ok := ApplyEntries(acct.assets, balances.value, false, Undefined);
      }
      var positions := acct.positions;
      var pushed := PushArray(update, "P");
      if ok && pushed.Some? {
        positions, ok := ApplyEntries(acct.positions, pushed.value, true, Get(update, "E"));
      }
      accountSnapshot := Some(Account(acct.fields, assets, positions));
    }

    /** The `for ... of` loop over the balance (or position) entries of a push;
        `ok` is false when an entry throws, which a nullish entry does only
        when the list is non-empty. */
    static method ApplyEntries(items: seq<Obj>, entries: seq<Json>, position: bool, eventTime: Json) returns (r: seq<Obj>, ok: bool)
      ensures (r, ok) == ApplyFrom(items, entries, 0, position, eventTime)
    {
      r, ok := items, true;
      var i := 0;
      while i < |entries| && ok
        invariant 0 <= i <= |entries|
        invariant ok ==> ApplyFrom(r, entries, i, position, eventTime) == ApplyFrom(items, entries, 0, position, eventTime)
        invariant !ok ==> (r, false) == ApplyFrom(items, entries, 0, position, eventTime)
        decreases |entries| - i, ok
      {
        match PropsOf(entries[i]) {
          case None =>
            if r == [] {
              i := i + 1;
            } else {
              ok := false;
            }
          case Some(e) =>
            if position {
              r := SetPosition(r, e, eventTime);
            } else {
              r := SetBalance(r, e);
            }
            i := i + 1;
        }
      }
    }

    /** `formatOrderUpdate`: normalise the pushed order, then store it. */
    method FormatOrderUpdate(o: Obj, event: Obj)
      modifies this`openOrders
      ensures openOrders == OrderUpdate(old(openOrders), FormatOrder(o, event))
    {
      var order := FormatOrder(o, event);
      StoreOrder(order);
    }

    /** The table maintenance of `formatOrderUpdate`: store or drop the order
        by its status, then sweep every MARKET order already marked as pushed. */
    method StoreOrder(order: Order)
      modifies this`openOrders
      ensures openOrders == OrderUpdate(old(openOrders), order)
    {
      var t := openOrders;
      if IsLive(order) {
        t := t[order.orderId := Pushed(order, false)];
      } else if order.orderType == MARKET {
        if order.orderId !in t || !Marked(t[order.orderId]) {
          t := t[order.orderId := Pushed(order, true)];
        } else {
          t := t - {order.orderId};
        }
      } else {
        t := t - {order.orderId};
      }
      openOrders := SweepSpent(t);
    }

    /** The sweep loop: every spent entry is deleted. */
    static method SweepSpent(t: Table) returns (swept: Table)
      ensures swept == Sweep(t)
    {
      swept := t;
      var ids := t.Keys;
      while ids != {}
        invariant ids <= t.Keys
        invariant forall id :: id in swept <==> id in t && (id in ids || !Spent(t[id]))
        invariant forall id :: id in swept ==> swept[id] == t[id]
        decreases |ids|
      {
        var id :| id in ids;
        if Spent(swept[id]) {
          swept := swept - {id};
        }
        ids := ids - {id};
      }
      assert swept == Sweep(t);
    }

    /** The kline branch of `onmessage`: replace the candle with the same open
        time, else append and drop the oldest past 100. */
    method UpsertKline(k: Kline)
      modifies this`lastKlines
      requires Valid()
      ensures Valid()
      ensures lastKlines == KlineUpsert(old(lastKlines), k)
    {
      KlineWindowBounded(lastKlines, k);
      var i := FindOpenTime(lastKlines, k.openTime);
      if i < |lastKlines| {
        lastKlines := lastKlines[i := k];
      } else {
        lastKlines := lastKlines + [k];
        if |lastKlines| > MAX_KLINES {
          lastKlines := lastKlines[1..];
        }
      }
    }

    /** A parsed push, routed by its event type `e`. */
    method Dispatch(data: Obj)
      modifies this`accountSnapshot, this`openOrders, this`lastDepthData, this`lastTickerData, this`lastKlines
      requires Valid()
      ensures Valid()
      ensures Cached() == Dispatched(old(Cached()), data)
    {
      ghost var c := Cached();
      var e := Get(data, "e");
      if e == ACCOUNT_UPDATE {
        MergeAccountUpdate(data);
        assert Cached() == c.(accountSnapshot := accountSnapshot);
      } else if e == ORDER_TRADE_UPDATE {
        var o := PropsOf(Get(data, "o"));
        if o.Some? {
          FormatOrderUpdate(o.value, data);
          assert Cached() == c.(openOrders := openOrders);
        }
      } else if e == DEPTH_UPDATE {
        lastDepthData := Some(data);
      } else if e == MINI_TICKER_EVENT {
        lastTickerData := Some(FormatTicker(data));
      } else if e == KLINE {
        var k := PropsOf(Get(data, "k"));
        if k.Some? {
          UpsertKline(FormatWsKline(k.value, None));
          assert Cached() == c.(lastKlines := lastKlines);
        }
      }
    }

    /** `onmessage` for a text frame: `ping` is answered with `pong` while the
        socket is open; text starting with `{` or `[` is parsed (`parse` gives
        `None` where `JSON.parse` throws) and dispatched; anything else is
        ignored. */
    method OnText(text: string, parse: string -> Option<Json>)
      modifies this`sent, this`accountSnapshot, this`openOrders, this`lastDepthData, this`lastTickerData, this`lastKlines
      requires Valid()
      ensures Valid()
      ensures sent == if Classify(text) == PingText && socket == Open then old(sent) + [Pong] else old(sent)
      ensures Cached() == TextReceived(old(Cached()), Classify(text), parse)
    {
      var k := Classify(text);
      if k == PingText {
        if socket == Open {
          sent := sent + [Pong];
        }
      } else if k.JsonText? {
        OnJsonText(k.t, parse);
      }
    }

    /** The parse-and-dispatch step of `onmessage`: a parse failure or a
        non-object is dropped. */
    method OnJsonText(t: string, parse: string -> Option<Json>)
      modifies this`accountSnapshot, this`openOrders, this`lastDepthData, this`lastTickerData, this`lastKlines
      requires Valid()
      ensures Valid()
      ensures Cached() == TextReceived(old(Cached()), JsonText(t), parse)
    {
      var parsed := parse(t);
      if parsed.Some? && PropsOf(parsed.value).Some? {
        Dispatch(PropsOf(parsed.value).value);
      }
    }

    /** The poll's account step: every top-level key of the reply is written
        onto the snapshot, or the reply becomes the snapshot. */
    method OverwriteAccount(reply: Account)
      modifies this`accountSnapshot
      ensures accountSnapshot == Some(if old(accountSnapshot).Some? then Overwrite(old(accountSnapshot).value, reply) else reply)
    {
      if accountSnapshot.None? {
        accountSnapshot := Some(reply);
        return;
      }
      var fields := AssignFields(accountSnapshot.value.fields, reply.fields);
      accountSnapshot := Some(Account(fields, reply.assets, reply.positions));
    }

    /** The copy loop: each key of `updates` is written onto `o`. */
    static method AssignFields(o: Obj, updates: map<string, Json>) returns (fields: Obj)
      ensures fields == Assign(o, updates)
    {
      fields := o;
      var keys := updates.Keys;
      while keys != {}
        invariant keys <= updates.Keys
        invariant fields.Keys == o.Keys + (updates.Keys - keys)
        invariant forall k :: k in fields ==> fields[k] == if k in updates && k !in keys then updates[k] else o[k]
        decreases |keys|
      {
        var key :| key in keys;
        fields := fields[key := updates[key]];
        keys := keys - {key};
      }
      assert fields == o + updates;
    }

    /** The poll's order step: drop ids missing from the REST list, then set
        every listed record under its id. */
    method ReconcileOrders(list: seq<Obj>)
      modifies this`openOrders
      ensures openOrders == ListTable(list)
    {
      var kept := DropUnlisted(openOrders, Ids(list));
      var table := SetListed(kept, list);
      openOrders := table;
    }

    /** The deletion loop: every key outside `ids` goes. */
    static method DropUnlisted(t: Table, ids: set<Json>) returns (kept: Table)
      ensures kept == Restrict(t, ids)
    {
      var keys := t.Keys;
      kept := t;
      while keys != {}
        invariant keys <= t.Keys
        invariant forall id :: id in kept <==> id in t && (id in ids || id in keys)
        invariant forall id :: id in kept ==> kept[id] == t[id]
        decreases |keys|
      {
        var id :| id in keys;
        if id !in ids {
          kept := kept - {id};
        }
        keys := keys - {id};
      }
      assert kept == Restrict(t, ids);
    }

    /** The insertion loop: each record is set under its id in list order. */
    static method SetListed(kept: Table, list: seq<Obj>) returns (table: Table)
      requires kept.Keys <= Ids(list)
      ensures table == ListTable(list)
    {
      table := kept;
      var i := 0;
      while i < |list|
        invariant 0 <= i <= |list|
        invariant table == kept + ListTable(list[..i])
      {
        var id, entry := Get(list[i], "orderId"), Listed(list[i]);
        assert list[..i + 1][..i] == list[..i];
        assert ListTable(list[..i + 1]) == ListTable(list[..i])[id := entry];
        UnionUpdate(kept, ListTable(list[..i]), id, entry);
        table := table[id := entry];
        i := i + 1;
      }
      assert list[..|list|] == list;
      UnionCovered(kept, ListTable(list));
    }

    /** One tick of the 10-second poll. An account of `None` is a failed
        request; a failure ends the tick, and an orders reply that is not a
        list throws in `map` before the table is touched. */
    method PollTick(account: Option<Account>, orders: OrdersReply)
      modifies this`accountSnapshot, this`openOrders
      ensures !pollArmed || account.None? ==> accountSnapshot == old(accountSnapshot) && openOrders == old(openOrders)
      ensures pollArmed && account.Some? ==>
        accountSnapshot == Some(if old(accountSnapshot).Some? then Overwrite(old(accountSnapshot).value, account.value) else account.value)
      ensures pollArmed && account.Some? && orders.Listing? ==> openOrders == ListTable(orders.list)
      ensures !orders.Listing? ==> openOrders == old(openOrders)
    {
      if !pollArmed || account.None? {
        return;
      }
      OverwriteAccount(account.value);
      if orders.Listing? {
        ReconcileOrders(orders.list);
      }
    }
  }
}
