/**
 * Request signing of the exchange client (exchanges/aster.ts, generateSignature
 * and signedRequest): the parameters, extended with `timestamp` and
 * `recvWindow`, are sorted by key and rendered as `k=v&k=v...`; that text is
 * signed with HMAC-SHA256 and the very same text, followed by
 * `&signature=<hex>`, is transmitted in the query (GET) or the body (other
 * verbs).  The keyed hash itself is a foreign library call and is a parameter.
 */
module Signing {
  import opened Common

  /** One property of a JavaScript object: key and value. */
  type Param = (string, Json)

  /** A plain object as `Object.keys` sees it: properties in insertion order. */
  predicate DistinctKeys(ps: seq<Param>)
  {
    forall i, j :: 0 <= i < j < |ps| ==> ps[i].0 != ps[j].0
  }

  function KeySet(ps: seq<Param>): set<string>
  {
    set i | 0 <= i < |ps| :: ps[i].0
  }

  /** `obj[key]`: the value of the first property named `key`. */
  function Lookup(ps: seq<Param>, key: string): Json
  {
    if ps == [] then Undefined
    else if ps[0].0 == key then ps[0].1
    else Lookup(ps[1..], key)
  }

  lemma KeySetCons(p: Param, rest: seq<Param>)
    ensures KeySet([p] + rest) == {p.0} + KeySet(rest)
  {
    var ps := [p] + rest;
    forall k | k in KeySet(ps) ensures k in {p.0} + KeySet(rest) {
      var i :| 0 <= i < |ps| && ps[i].0 == k;
      if i > 0 { assert rest[i - 1].0 == k; }
    }
    forall k | k in KeySet(rest) ensures k in KeySet(ps) {
      var i :| 0 <= i < |rest| && rest[i].0 == k;
      assert ps[i + 1].0 == k;
    }
    assert ps[0].0 == p.0;
  }

  /** `obj[key] = v`: an existing property keeps its place, a new one is appended. */
  function Assign(ps: seq<Param>, key: string, v: Json): (r: seq<Param>)
    ensures DistinctKeys(ps) ==> DistinctKeys(r)
    ensures Lookup(r, key) == v
    ensures forall k :: k != key ==> Lookup(r, k) == Lookup(ps, k)
    ensures KeySet(r) == KeySet(ps) + {key}
  {
    if ps == [] then [(key, v)]
    else
      KeySetCons(ps[0], ps[1..]);
      DistinctSplit(ps[0], ps[1..]);
      assert ps == [ps[0]] + ps[1..];
      if ps[0].0 == key then
        KeySetCons((key, v), ps[1..]);
        DistinctSplit((key, v), ps[1..]);
        [(key, v)] + ps[1..]
      else
        var rest := Assign(ps[1..], key, v);
        KeySetCons(ps[0], rest);
        DistinctSplit(ps[0], rest);
        [ps[0]] + rest
  }

  /** A list with a first property is distinct exactly when its tail is and
      the first key does not occur in the tail. */
  lemma DistinctSplit(p: Param, rest: seq<Param>)
    ensures DistinctKeys([p] + rest) <==> DistinctKeys(rest) && p.0 !in KeySet(rest)
  {
    if DistinctKeys([p] + rest) {
      DistinctTail(p, rest);
    }
    if DistinctKeys(rest) && p.0 !in KeySet(rest) {
      DistinctCons(p, rest);
    }
  }

  lemma DistinctTail(p: Param, rest: seq<Param>)
    requires DistinctKeys([p] + rest)
    ensures DistinctKeys(rest) && p.0 !in KeySet(rest)
  {
    var ps := [p] + rest;
    forall i, j | 0 <= i < j < |rest| ensures rest[i].0 != rest[j].0 {
      assert rest[i] == ps[i + 1] && rest[j] == ps[j + 1];
    }
    forall i | 0 <= i < |rest| ensures rest[i].0 != p.0 {
      assert rest[i] == ps[i + 1] && p == ps[0];
    }
  }

  lemma DistinctCons(p: Param, rest: seq<Param>)
    requires DistinctKeys(rest) && p.0 !in KeySet(rest)
    ensures DistinctKeys([p] + rest)
  {
    var ps := [p] + rest;
    forall i, j | 0 <= i < j < |ps| ensures ps[i].0 != ps[j].0 {
      assert ps[j] == rest[j - 1];
      if i > 0 {
        assert ps[i] == rest[i - 1];
      } else {
        assert rest[j - 1].0 in KeySet(rest);
      }
    }
  }

  const DEFAULT_RECV_WINDOW: int := 5000

  /** `params.recvWindow || 5000` */
  function RecvWindow(params: seq<Param>): (w: Json)
    ensures Truthy(Lookup(params, "recvWindow")) ==> w == Lookup(params, "recvWindow")
    ensures !Truthy(Lookup(params, "recvWindow")) ==> w == Num(DEFAULT_RECV_WINDOW)
  {
    var given := Lookup(params, "recvWindow");
    if Truthy(given) then given else Num(DEFAULT_RECV_WINDOW)
  }

  /** `{ ...params, timestamp, recvWindow }` */
  function FullParams(params: seq<Param>, timestamp: int): seq<Param>
  {
    Assign(Assign(params, "timestamp", Num(timestamp)), "recvWindow", RecvWindow(params))
  }

  /** Strict lexicographic order on keys, as `Array.prototype.sort` compares strings. */
  predicate Less(a: string, b: string)
    decreases |a|
  {
    if a == [] then b != []
    else b != [] && (a[0] < b[0] || (a[0] == b[0] && Less(a[1..], b[1..])))
  }

  lemma {:induction false} LessIrreflexive(a: string)
    ensures !Less(a, a)
    decreases |a|
  {
    if a != [] { LessIrreflexive(a[1..]); }
  }

  lemma {:induction false} LessTransitive(a: string, b: string, c: string)
    requires Less(a, b) && Less(b, c)
    ensures Less(a, c)
    decreases |a|
  {
    if a != [] && a[0] == b[0] && b[0] == c[0] {
      LessTransitive(a[1..], b[1..], c[1..]);
    }
  }

  lemma {:induction false} LessTotal(a: string, b: string)
    requires a != b
    ensures Less(a, b) || Less(b, a)
    decreases |a|
  {
    if a != [] && b != [] && a[0] == b[0] {
      assert a == [a[0]] + a[1..];
      assert b == [b[0]] + b[1..];
      LessTotal(a[1..], b[1..]);
    }
  }

  lemma LessAsymmetric(a: string, b: string)
    requires Less(a, b)
    ensures !Less(b, a)
  {
    if Less(b, a) {
      LessTransitive(a, b, a);
      LessIrreflexive(a);
    }
  }

  predicate StrictlySorted(ps: seq<Param>)
  {
    forall i, j :: 0 <= i < j < |ps| ==> Less(ps[i].0, ps[j].0)
  }

  function InsertByKey(p: Param, sorted: seq<Param>): (r: seq<Param>)
    ensures multiset(r) == multiset(sorted) + multiset{p}
  {
    if sorted == [] then [p]
    else if Less(p.0, sorted[0].0) then [p] + sorted
    else
      assert sorted == [sorted[0]] + sorted[1..];
      [sorted[0]] + InsertByKey(p, sorted[1..])
  }

  /** `Object.keys(params).sort()` applied to the properties themselves. */
  function SortByKey(ps: seq<Param>): (r: seq<Param>)
    ensures multiset(r) == multiset(ps)
  {
    if ps == [] then []
    else
      assert ps == [ps[0]] + ps[1..];
      InsertByKey(ps[0], SortByKey(ps[1..]))
  }

  /** Every key in `ps` comes after `lo`. */
  predicate AllAfter(lo: string, ps: seq<Param>)
  {
    forall i :: 0 <= i < |ps| ==> Less(lo, ps[i].0)
  }

  lemma {:induction false} InsertStaysAfter(lo: string, p: Param, sorted: seq<Param>)
    requires AllAfter(lo, sorted) && Less(lo, p.0)
    ensures AllAfter(lo, InsertByKey(p, sorted))
    decreases |sorted|
  {
    if sorted != [] && !Less(p.0, sorted[0].0) {
      InsertStaysAfter(lo, p, sorted[1..]);
    }
  }

  lemma {:induction false} InsertKeepsSorted(p: Param, sorted: seq<Param>)
    requires StrictlySorted(sorted)
    requires forall i :: 0 <= i < |sorted| ==> sorted[i].0 != p.0
    ensures StrictlySorted(InsertByKey(p, sorted))
    decreases |sorted|
  {
    if sorted != [] && !Less(p.0, sorted[0].0) {
      var tail := sorted[1..];
      InsertKeepsSorted(p, tail);
      LessTotal(p.0, sorted[0].0);
      assert AllAfter(sorted[0].0, tail);
      InsertStaysAfter(sorted[0].0, p, tail);
    } else if sorted != [] {
      forall j | 1 <= j < |[p] + sorted| ensures Less(p.0, ([p] + sorted)[j].0) {
        if j > 1 { LessTransitive(p.0, sorted[0].0, sorted[j - 1].0); }
      }
    }
  }

  /** Sorting an object's properties yields them in strictly ascending key order. */
  lemma {:induction false} SortIsStrictlySorted(ps: seq<Param>)
    requires DistinctKeys(ps)
    ensures StrictlySorted(SortByKey(ps))
  {
    if ps != [] {
      var tail := ps[1..];
      assert DistinctKeys(tail) by {
        forall i, j | 0 <= i < j < |tail| ensures tail[i].0 != tail[j].0 {
          assert tail[i] == ps[i + 1] && tail[j] == ps[j + 1];
        }
      }
      SortIsStrictlySorted(tail);
      var sortedTail := SortByKey(tail);
      forall i | 0 <= i < |sortedTail| ensures sortedTail[i].0 != ps[0].0 {
        assert sortedTail[i] in multiset(tail);
        var k :| 0 <= k < |tail| && tail[k] == sortedTail[i];
        assert ps[k + 1] == tail[k];
      }
      InsertKeepsSorted(ps[0], sortedTail);
    }
  }

  lemma SortedHeadIsLeast(a: seq<Param>, x: Param)
    requires StrictlySorted(a) && x in multiset(a) && x != a[0]
    ensures Less(a[0].0, x.0)
  {
    var i :| 0 <= i < |a| && a[i] == x;
  }

  lemma SortedTail(a: seq<Param>)
    requires StrictlySorted(a) && a != []
    ensures StrictlySorted(a[1..]) && multiset(a[1..]) == multiset(a) - multiset{a[0]}
  {
    assert a == [a[0]] + a[1..];
  }

  lemma SortedHeadsAgree(a: seq<Param>, b: seq<Param>)
    requires StrictlySorted(a) && StrictlySorted(b) && a != [] && b != []
    requires multiset(a) == multiset(b)
    ensures a[0] == b[0]
  {
    if a[0] != b[0] {
      assert a[0] in multiset(a) && b[0] in multiset(b);
      SortedHeadIsLeast(b, a[0]);
      SortedHeadIsLeast(a, b[0]);
      LessAsymmetric(a[0].0, b[0].0);
    }
  }

  /** Two strictly sorted property lists with the same properties are equal. */
  lemma {:induction false} SortedUnique(a: seq<Param>, b: seq<Param>)
    requires StrictlySorted(a) && StrictlySorted(b)
    requires multiset(a) == multiset(b)
    ensures a == b
    decreases |a|
  {
    assert |a| == |multiset(a)| == |multiset(b)| == |b|;
    if a != [] {
      SortedHeadsAgree(a, b);
      SortedTail(a);
      SortedTail(b);
      SortedUnique(a[1..], b[1..]);
      assert a == [a[0]] + a[1..] && b == [b[0]] + b[1..];
    }
  }

  /** `${key}=${value}` */
  function Pair(p: Param): string
  {
    p.0 + "=" + JsString(p.1)
  }

  /** `.map(key => `${key}=${value}`).join('&')` */
  function Render(ps: seq<Param>): string
  {
    if ps == [] then ""
    else if |ps| == 1 then Pair(ps[0])
    else Pair(ps[0]) + "&" + Render(ps[1..])
  }

  /** The text that is both signed and transmitted. */
  function CanonicalString(ps: seq<Param>): string
  {
    Render(SortByKey(ps))
  }

  /** `generateSignature`: the keyed hash of the canonical string. */
  function GenerateSignature(secret: string, ps: seq<Param>, hmacHex: (string, string) -> string): string
  {
    hmacHex(secret, CanonicalString(ps))
  }

  /** The signature depends on the set of properties only, not on the order
      in which the caller inserted them. */
  lemma SignatureIgnoresInsertionOrder(secret: string, p: seq<Param>, q: seq<Param>, hmacHex: (string, string) -> string)
    requires DistinctKeys(p) && DistinctKeys(q)
    requires multiset(p) == multiset(q)
    ensures GenerateSignature(secret, p, hmacHex) == GenerateSignature(secret, q, hmacHex)
  {
    SortIsStrictlySorted(p);
    SortIsStrictlySorted(q);
    SortedUnique(SortByKey(p), SortByKey(q));
  }

  /** The list holds property `k` with value `v`. */
  predicate Has(ps: seq<Param>, k: string, v: Json)
  {
    exists i :: 0 <= i < |ps| && ps[i] == (k, v)
  }

  lemma {:induction false} LookupInKeySet(ps: seq<Param>, k: string)
    requires k in KeySet(ps)
    ensures Has(ps, k, Lookup(ps, k))
  {
    if ps[0].0 != k {
      var i :| 0 <= i < |ps| && ps[i].0 == k;
      assert ps[1..][i - 1].0 == k;
      LookupInKeySet(ps[1..], k);
      var j :| 0 <= j < |ps[1..]| && ps[1..][j] == (k, Lookup(ps[1..], k));
      assert ps[j + 1] == (k, Lookup(ps, k));
    } else {
      assert ps[0] == (k, Lookup(ps, k));
    }
  }

  /** Sorting keeps every property: same keys, and each key with its value. */
  lemma SortKeepsProperties(ps: seq<Param>)
    ensures KeySet(SortByKey(ps)) == KeySet(ps)
    ensures forall k :: k in KeySet(ps) ==> Has(SortByKey(ps), k, Lookup(ps, k))
  {
    var s := SortByKey(ps);
    forall k | k in KeySet(s) ensures k in KeySet(ps) {
      var i :| 0 <= i < |s| && s[i].0 == k;
      assert s[i] in multiset(ps);
      var j :| 0 <= j < |ps| && ps[j] == s[i];
    }
    forall k | k in KeySet(ps) ensures k in KeySet(s) && Has(s, k, Lookup(ps, k)) {
      LookupInKeySet(ps, k);
      var j :| 0 <= j < |ps| && ps[j] == (k, Lookup(ps, k));
      assert ps[j] in multiset(s);
      var i :| 0 <= i < |s| && s[i] == ps[j];
    }
  }

  /** The signed parameter list: strictly ascending keys, the caller's keys
      plus `timestamp` and `recvWindow`, with `timestamp` the given time,
      `recvWindow` the caller's when truthy and 5000 otherwise, every other
      value the caller's. */
  lemma SignedParams(params: seq<Param>, timestamp: int)
    requires DistinctKeys(params)
    ensures var s := SortByKey(FullParams(params, timestamp));
      && StrictlySorted(s)
      && KeySet(s) == KeySet(params) + {"timestamp", "recvWindow"}
      && Has(s, "timestamp", Num(timestamp))
      && Has(s, "recvWindow", RecvWindow(params))
      && forall k :: k in KeySet(params) && k != "timestamp" && k != "recvWindow" ==>
           Has(s, k, Lookup(params, k))
  {
    var full := FullParams(params, timestamp);
    SortIsStrictlySorted(full);
    SortKeepsProperties(full);
  }

  datatype HttpRequest = HttpRequest(verb: string, url: string, apiKeyHeader: string, body: Option<string>)

  /** `signedRequest` up to the `fetch`: the request it builds. */
  function SignedRequest(baseUrl: string, path: string, verb: string, params: seq<Param>,
                         timestamp: int, apiKey: string, secret: string,
                         hmacHex: (string, string) -> string): (r: HttpRequest)
    ensures var s := CanonicalString(FullParams(params, timestamp));
      var signed := s + "&signature=" + hmacHex(secret, s);
      && r.verb == verb && r.apiKeyHeader == apiKey
      && (verb == "GET" ==> r.url == baseUrl + path + "?" + signed && r.body == None)
      && (verb != "GET" ==> r.url == baseUrl + path && r.body == Some(signed))
  {
    var full := FullParams(params, timestamp);
    var signature := GenerateSignature(secret, full, hmacHex);
    var paramStr := Render(SortByKey(full));
    var signed := paramStr + "&signature=" + signature;
    if verb == "GET" then
      HttpRequest(verb, baseUrl + path + "?" + signed, apiKey, None)
    else
      HttpRequest(verb, baseUrl + path, apiKey, Some(signed))
  }
}
