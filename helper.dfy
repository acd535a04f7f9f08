/**
 * The two read-only helpers of utils/helper.ts: the position of one symbol
 * in an account snapshot, and the 30-candle simple moving average.
 *
 * `parseFloat` is a parameter; prices are reals (no NaN).
 */
module Helper {
  import opened Common
  import opened Normalize
  import opened Reconcile

  datatype Position = Position(positionAmt: real, entryPrice: real, unrealizedProfit: real)

  const NO_POSITION: Position := Position(0.0, 0.0, 0.0)

  predicate HasSymbol(p: Obj, symbol: string)
  {
    Get(p, "symbol") == Str(symbol)
  }

  /** The three fields of one position entry, through `parseFloat`. */
  function ReadPosition(p: Obj, parseFloat: Json -> real): Position
  {
    Position(parseFloat(Get(p, "positionAmt")), parseFloat(Get(p, "entryPrice")),
             parseFloat(Get(p, "unrealizedProfit")))
  }

  /** `getPosition`: zeros without a snapshot or without an entry for the
      symbol; otherwise the first entry for the symbol, whatever its
      `positionSide`. */
  function GetPosition(snapshot: Option<Account>, symbol: string, parseFloat: Json -> real): (p: Position)
    ensures snapshot.None? ==> p == NO_POSITION
    ensures snapshot.Some? && (forall q :: q in snapshot.value.positions ==> !HasSymbol(q, symbol)) ==>
      p == NO_POSITION
    ensures snapshot.Some? ==> forall i :: 0 <= i < |snapshot.value.positions| ==>
      HasSymbol(snapshot.value.positions[i], symbol) &&
      (forall j :: 0 <= j < i ==> !HasSymbol(snapshot.value.positions[j], symbol)) ==>
      p == ReadPosition(snapshot.value.positions[i], parseFloat)
  {
    if snapshot.None? then NO_POSITION
    else
      var ps := snapshot.value.positions;
      var i := FirstMatch(ps, q => HasSymbol(q, symbol));
      if i == |ps| then NO_POSITION else ReadPosition(ps[i], parseFloat)
  }

  /** Once an entry for the symbol exists, entries added after it (another
      `positionSide` of the same symbol, say) never change the position. */
  lemma LaterEntriesDoNotMatter(acct: Account, extra: seq<Obj>, symbol: string, parseFloat: Json -> real)
    requires exists q :: q in acct.positions && HasSymbol(q, symbol)
    ensures GetPosition(Some(acct.(positions := acct.positions + extra)), symbol, parseFloat)
         == GetPosition(Some(acct), symbol, parseFloat)
  {
    var ps := acct.positions;
    var i := FirstMatch(ps, q => HasSymbol(q, symbol));
    var q :| q in ps && HasSymbol(q, symbol);
    assert i < |ps|;
    var longer := acct.(positions := ps + extra);
    assert longer.positions[i] == ps[i];
  }

  // ----- the 30-candle average -----

  const SMA_PERIOD: nat := 30

  /** `closes.reduce((sum, price) => sum + price, 0)`, summed left to right. */
  function Sum(s: seq<real>): real
  {
    if s == [] then 0.0 else Sum(s[..|s| - 1]) + s[|s| - 1]
  }

  function Lowest(s: seq<real>): (m: real)
    requires s != []
    ensures m in s && forall i :: 0 <= i < |s| ==> m <= s[i]
  {
    if |s| == 1 then s[0]
    else
      var rest := Lowest(s[1..]);
      assert forall i :: 1 <= i < |s| ==> s[i] == s[1..][i - 1];
      if s[0] <= rest then s[0] else rest
  }

  function Highest(s: seq<real>): (m: real)
    requires s != []
    ensures m in s && forall i :: 0 <= i < |s| ==> s[i] <= m
  {
    if |s| == 1 then s[0]
    else
      var rest := Highest(s[1..]);
      assert forall i :: 1 <= i < |s| ==> s[i] == s[1..][i - 1];
      if s[0] >= rest then s[0] else rest
  }

  /** A sum lies between `n` times the least and `n` times the greatest term. */
  lemma {:induction false} SumBounds(s: seq<real>, lo: real, hi: real)
    requires forall i :: 0 <= i < |s| ==> lo <= s[i] <= hi
    ensures |s| as real * lo <= Sum(s) <= |s| as real * hi
    decreases |s|
  {
    if s != [] {
      SumBounds(s[..|s| - 1], lo, hi);
    }
  }

  /** The mean lies between the least and the greatest term. */
  lemma MeanWithin(s: seq<real>)
    requires s != []
    ensures Lowest(s) <= Sum(s) / |s| as real <= Highest(s)
  {
    MeanBounds(s, Lowest(s), Highest(s));
  }

  lemma MeanBounds(s: seq<real>, lo: real, hi: real)
    requires s != [] && forall i :: 0 <= i < |s| ==> lo <= s[i] <= hi
    ensures lo <= Sum(s) / |s| as real <= hi
  {
    SumBounds(s, lo, hi);
    DivideBounds(Sum(s), |s| as real, lo, hi);
  }

  lemma DivideBounds(total: real, n: real, lo: real, hi: real)
    requires n > 0.0 && n * lo <= total <= n * hi
    ensures lo <= total / n <= hi
  {
    assert total / n * n == total;
  }

  /** The closing prices of the candles, through `parseFloat`. */
  function Closes(klines: seq<Kline>, parseFloat: Json -> real): (c: seq<real>)
    ensures |c| == |klines| && forall i :: 0 <= i < |klines| ==> c[i] == parseFloat(klines[i].close)
  {
    seq(|klines|, i requires 0 <= i < |klines| => parseFloat(klines[i].close))
  }

  /** The last 30 candles. */
  function Window(klines: seq<Kline>): (w: seq<Kline>)
    requires |klines| >= SMA_PERIOD
    ensures |w| == SMA_PERIOD && w == klines[|klines| - SMA_PERIOD..]
  {
    klines[|klines| - SMA_PERIOD..]
  }

  /** The arithmetic mean, which lies between the lowest and highest term. */
  function Mean(s: seq<real>): (m: real)
    requires s != []
    ensures Lowest(s) <= m <= Highest(s)
  {
    MeanWithin(s);
    Sum(s) / |s| as real
  }

  /** `calculateSMA30`: `null` without candles or with fewer than 30; else
      the mean close of the last 30, which lies between their lowest and
      highest close. */
  function Sma30(klines: Option<seq<Kline>>, parseFloat: Json -> real): (r: Option<real>)
    ensures r.None? <==> klines.None? || |klines.value| < SMA_PERIOD
    ensures r.Some? ==>
      var last := Closes(Window(klines.value), parseFloat);
      Lowest(last) <= r.value <= Highest(last)
  {
    if klines.None? || |klines.value| < SMA_PERIOD then None
    else Some(Mean(Closes(Window(klines.value), parseFloat)))
  }

  /** Candles before the last 30 do not move the average. */
  lemma Sma30IgnoresOlderCandles(older: seq<Kline>, klines: seq<Kline>, parseFloat: Json -> real)
    requires |klines| >= SMA_PERIOD
    ensures Sma30(Some(older + klines), parseFloat) == Sma30(Some(klines), parseFloat)
  {
    var all := older + klines;
    assert Window(all) == Window(klines);
  }

  /** Thirty closes at one price average to that price. */
  lemma {:induction false} SumOfConstant(s: seq<real>, c: real)
    requires forall i :: 0 <= i < |s| ==> s[i] == c
    ensures Sum(s) == |s| as real * c
    decreases |s|
  {
    if s != [] {
      SumOfConstant(s[..|s| - 1], c);
    }
  }

  lemma Sma30OfFlatMarket(klines: seq<Kline>, parseFloat: Json -> real, c: real)
    requires |klines| >= SMA_PERIOD
    requires forall k :: k in klines ==> parseFloat(k.close) == c
    ensures Sma30(Some(klines), parseFloat) == Some(c)
  {
    var closes := Closes(Window(klines), parseFloat);
    forall i | 0 <= i < |closes| ensures closes[i] == c {
      assert Window(klines)[i] in klines;
    }
    SumOfConstant(closes, c);
  }
}
