/**
 * Rate limiting (apps/api/src/transport/rate-limit.ts): a bounded map of fixed windows
 * that forgets the least recently used keys, and the unbounded counter it stands in for.
 */
module RateLimit {
  import opened Basics

  // ---- Limits (apps/api/src/transport/kernel.ts) -------------------------

  const WINDOW_SECONDS: nat := 60
  const WINDOW_MS: nat := 60_000

  function ClassPart(key: string): string {
    if key == "" || key[0] == ':' then "" else [key[0]] + ClassPart(key[1..])
  }

  function LimitOf(key: string): (limit: nat)
    ensures limit >= 1
  {
    var c := ClassPart(key);
    if c == "auth_login" then 10
    else if c == "auth_callback" then 30
    else if c == "auth_logout" then 15
    else if c == "auth_token_issue" then 5
    else 300
  }

  /** The key is of the class: its name, alone or before a colon. */
  predicate OfClass(key: string, class_: string) {
    class_ <= key && ':' !in class_ && (key == class_ || key[|class_|] == ':')
  }

  lemma {:induction false} ClassUnique(key: string, c: string)
    requires OfClass(key, c)
    ensures c == ClassPart(key)
  {
    if c != "" {
      assert c == [c[0]] + c[1..] && c[0] in c;
      ClassUnique(key[1..], c[1..]);
    }
  }

  lemma {:induction false} ClassIsPrefix(key: string)
    ensures OfClass(key, ClassPart(key))
  {
    if key != "" && key[0] != ':' {
      ClassIsPrefix(key[1..]);
      assert ([key[0]] + ClassPart(key[1..]))[1..] == ClassPart(key[1..]);
    }
  }

  /** The limit of a key is that of the class it names, and 300 where it names none of them. */
  lemma LimitIsOfClass(key: string)
    ensures OfClass(key, "auth_login") ==> LimitOf(key) == 10
    ensures OfClass(key, "auth_callback") ==> LimitOf(key) == 30
    ensures OfClass(key, "auth_logout") ==> LimitOf(key) == 15
    ensures OfClass(key, "auth_token_issue") ==> LimitOf(key) == 5
    ensures (forall c | c in ["auth_login", "auth_callback", "auth_logout", "auth_token_issue"] :: !OfClass(key, c)) ==>
              LimitOf(key) == 300
  {
    hide OfClass, ClassPart;
    ClassIsPrefix(key);
    forall c | OfClass(key, c) ensures c == ClassPart(key) { ClassUnique(key, c); }
  }

  const RATE_LIMITS: map<string, nat> :=
    map["auth_login" := 10, "auth_callback" := 30, "auth_logout" := 15, "auth_token_issue" := 5]

  method FindLimit(key: string) returns (limit: nat)
    ensures limit == LimitOf(key)
  {
    var end := 0;
    while end < |key| && key[end] != ':'
      invariant end <= |key| && ClassPart(key) == key[..end] + ClassPart(key[end..])
    {
      assert key[end..][1..] == key[end + 1..] && key[..end + 1] == key[..end] + [key[end]];
      end := end + 1;
    }
    assert ClassPart(key[end..]) == "" && key[..end] + "" == key[..end];
    limit := if key[..end] in RATE_LIMITS then RATE_LIMITS[key[..end]] else 300;
  }

  function WindowStart(now: nat): nat { now / WINDOW_MS * WINDOW_MS }

  datatype Verdict = Verdict(allowed: bool, retryAfterSeconds: nat)

  /** Math.ceil(ms / 1000). */
  function CeilSeconds(ms: int): int { (ms + 999) / 1000 }

  function VerdictOf(key: string, count: nat, now: nat): Verdict {
    if count > LimitOf(key)
    then Verdict(false, Max(1, CeilSeconds(WindowStart(now) + WINDOW_MS - now)))
    else Verdict(true, 0)
  }

  /** A refused caller that waits as told finds a new window, and is not told to wait longer. */
  lemma RetryLandsInNextWindow(now: nat)
    ensures var r := Max(1, CeilSeconds(WindowStart(now) + WINDOW_MS - now));
            && 1 <= r <= WINDOW_SECONDS
            && WindowStart(now + 1000 * r) == WindowStart(now) + WINDOW_MS
            && now + 1000 * (r - 1) < WindowStart(now) + WINDOW_MS
            && r == Max(1, WINDOW_SECONDS - now / 1000 % WINDOW_SECONDS)
  {
    hide WindowStart;
    var q, m := now / WINDOW_MS, now % WINDOW_MS;
    assert now == q * WINDOW_MS + m;
    StartAt(now, q, m);
    SecondsAt(now, q, m);
    WaitIs(m);
    var r := CeilSeconds(WINDOW_MS - m);
    StartAt(now + 1000 * r, q + 1, m + 1000 * r - WINDOW_MS);
  }

  /** A time by its window and its place in it. */
  lemma StartAt(now: nat, q: nat, m: nat)
    requires now == q * WINDOW_MS + m && m < WINDOW_MS
    ensures WindowStart(now) == q * WINDOW_MS
  {
    assert now / WINDOW_MS == q;
  }

  lemma SecondsAt(now: nat, q: nat, m: nat)
    requires now == q * WINDOW_MS + m && m < WINDOW_MS
    ensures now / 1000 % WINDOW_SECONDS == m / 1000
  {
    assert now / 1000 == q * WINDOW_SECONDS + m / 1000;
  }

  lemma WaitIs(m: nat)
    requires m < WINDOW_MS
    ensures var r := CeilSeconds(WINDOW_MS - m);
            1 <= r <= WINDOW_SECONDS && WINDOW_MS <= m + 1000 * r < WINDOW_MS + 1000 && r == WINDOW_SECONDS - m / 1000
  {
  }

  // ---- The map in insertion order ----------------------------------------

  datatype Bucket = Bucket(key: string, windowStart: nat, count: nat)

  /** Drop the buckets of earlier windows. */
  function Fresh(b: seq<Bucket>, ws: nat): seq<Bucket> {
    if b == [] then []
    else (if b[0].windowStart < ws then [] else [b[0]]) + Fresh(b[1..], ws)
  }

  function Newest(b: seq<Bucket>, n: nat): seq<Bucket> {
    if |b| <= n then b else b[|b| - n..]
  }

  function Evict(b: seq<Bucket>, ws: nat, maxKeys: nat): seq<Bucket> {
    if |b| > maxKeys then Newest(Fresh(b, ws), maxKeys) else b
  }

  /** The place of a key, or the size of the map. */
  function Find(b: seq<Bucket>, key: string): (p: nat)
    ensures p <= |b| && (p < |b| ==> b[p].key == key)
    ensures forall j | 0 <= j < p :: b[j].key != key
  {
    if b == [] || b[0].key == key then 0 else 1 + Find(b[1..], key)
  }

  function Lookup(b: seq<Bucket>, key: string): Option<Bucket> {
    if b == [] then None else if b[0].key == key then Some(b[0]) else Lookup(b[1..], key)
  }

  function Without(b: seq<Bucket>, key: string): seq<Bucket> {
    if b == [] then [] else if b[0].key == key then b[1..] else [b[0]] + Without(b[1..], key)
  }

  function NextCount(found: Option<Bucket>, ws: nat): nat {
    if found.Some? && found.value.windowStart == ws then found.value.count + 1 else 1
  }

  function Bump(b: seq<Bucket>, key: string, ws: nat, count: nat): seq<Bucket> {
    Without(b, key) + [Bucket(key, ws, count)]
  }

  function Consumed(b: seq<Bucket>, key: string, ws: nat, maxKeys: nat): seq<Bucket> {
    var e := Evict(b, ws, maxKeys);
    Bump(e, key, ws, NextCount(Lookup(e, key), ws))
  }

  // ---- Histories ---------------------------------------------------------

  datatype Use = Use(key: string, now: nat)

  predicate Monotone(h: seq<Use>) { forall i, j | 0 <= i < j < |h| :: h[i].now <= h[j].now }

  function Buckets(h: seq<Use>, maxKeys: nat): seq<Bucket> {
    if h == [] then []
    else
      var last := h[|h| - 1];
      Consumed(Buckets(h[..|h| - 1], maxKeys), last.key, WindowStart(last.now), maxKeys)
  }

  /** How often the last key was used in its window: the count of an unbounded counter. */
  function Exact(h: seq<Use>, key: string, ws: nat): nat {
    if h == [] then 0
    else
      var last := h[|h| - 1];
      Exact(h[..|h| - 1], key, ws) + if last.key == key && WindowStart(last.now) == ws then 1 else 0
  }

  /** The place of the last use of a key, or the length of the history. */
  function LastUse(h: seq<Use>, key: string): (i: nat)
    ensures i <= |h| && (i < |h| ==> h[i].key == key)
    ensures forall j | 0 <= j < |h| && (i < j || i == |h|) :: h[j].key != key
  {
    if h == [] then 0
    else if h[|h| - 1].key == key then |h| - 1
    else
      var i := LastUse(h[..|h| - 1], key);
      if i == |h| - 1 then |h| else i
  }

  function KeysFrom(h: seq<Use>, i: nat): set<string>
    requires i <= |h|
  {
    set j | i <= j < |h| :: h[j].key
  }

  /**
   * Whether the bucket of the last use of a key still counts: the use lies in this window
   * and fewer than maxKeys other keys were used since.
   */
  predicate Retained(h: seq<Use>, key: string, ws: nat, maxKeys: nat) {
    var i := LastUse(h, key);
    i < |h| && WindowStart(h[i].now) == ws && |KeysFrom(h, i + 1)| < maxKeys
  }

  /** What the bounded map counts for the last use of a history. */
  function Bounded(h: seq<Use>, maxKeys: nat): nat
    requires h != []
    decreases |h|
  {
    var before, last := h[..|h| - 1], h[|h| - 1];
    if Retained(before, last.key, WindowStart(last.now), maxKeys)
    then Bounded(before[..LastUse(before, last.key) + 1], maxKeys) + 1
    else 1
  }

  // ---- The list of all keys by last use ----------------------------------

  function KeysOf(r: seq<Bucket>): set<string> {
    if r == [] then {} else {r[0].key} + KeysOf(r[1..])
  }

  predicate Distinct(r: seq<Bucket>) {
    r == [] || (r[0].key !in KeysOf(r[1..]) && Distinct(r[1..]))
  }

  /** The keys that stand after a key. */
  function Behind(r: seq<Bucket>, key: string): set<string> {
    if r == [] then {} else if r[0].key == key then KeysOf(r[1..]) else Behind(r[1..], key)
  }

  /** As Buckets, but nothing is evicted: a bucket ages out by how many keys stand after it. */
  function Recency(h: seq<Use>, maxKeys: nat): seq<Bucket> {
    if h == [] then []
    else
      var last := h[|h| - 1];
      var r, ws := Recency(h[..|h| - 1], maxKeys), WindowStart(last.now);
      Bump(r, last.key, ws, AgedCount(r, last.key, ws, maxKeys))
  }

  function AgedCount(r: seq<Bucket>, key: string, ws: nat, maxKeys: nat): nat {
    if |Behind(r, key)| < maxKeys then NextCount(Lookup(r, key), ws) else 1
  }

  lemma Regroup(a: seq<Bucket>, b: seq<Bucket>, c: seq<Bucket>)
    ensures a + (b + c) == (a + b) + c
  {
  }

  lemma {:induction false} KeysOfAppend(a: seq<Bucket>, b: seq<Bucket>)
    ensures KeysOf(a + b) == KeysOf(a) + KeysOf(b)
  {
    if a == [] { assert a + b == b; } else {
      assert (a + b)[1..] == a[1..] + b;
      KeysOfAppend(a[1..], b);
    }
  }

  lemma {:induction false} KeysOfSize(r: seq<Bucket>)
    requires Distinct(r)
    ensures |KeysOf(r)| == |r|
  {
    if r != [] { KeysOfSize(r[1..]); }
  }

  lemma {:induction false} LookupIn(r: seq<Bucket>, key: string)
    ensures Lookup(r, key).Some? <==> key in KeysOf(r)
    ensures Distinct(r) && key in KeysOf(r) ==> |Behind(r, key)| < |r|
  {
    if r != [] {
      LookupIn(r[1..], key);
      if Distinct(r) { KeysOfSize(r[1..]); }
    }
  }

  lemma {:induction false} FindLookup(r: seq<Bucket>, key: string)
    ensures Lookup(r, key) == if Find(r, key) < |r| then Some(r[Find(r, key)]) else None
    ensures Without(r, key) == if Find(r, key) < |r| then r[..Find(r, key)] + r[Find(r, key) + 1..] else r
  {
    if r != [] && r[0].key != key {
      FindLookup(r[1..], key);
      CutOut(r, Find(r[1..], key));
    }
  }

  lemma CutOut(r: seq<Bucket>, p: nat)
    requires r != [] && p < |r|
    ensures p < |r| - 1 ==> [r[0]] + (r[1..][..p] + r[1..][p + 1..]) == r[..p + 1] + r[p + 2..]
    ensures [r[0]] + r[1..] == r
  {
    var rest := r[1..];
    assert r[..p + 1] == [r[0]] + rest[..p];
    if p < |rest| {
      assert r[p + 2..] == rest[p + 1..];
      Regroup([r[0]], rest[..p], rest[p + 1..]);
    }
  }

  lemma {:induction false} KeysWithout(r: seq<Bucket>, key: string)
    requires Distinct(r)
    ensures KeysOf(Without(r, key)) == KeysOf(r) - {key} && Distinct(Without(r, key))
  {
    if r != [] { KeysWithout(r[1..], key); }
  }

  lemma {:induction false} DistinctSnoc(r: seq<Bucket>, x: Bucket)
    requires Distinct(r) && x.key !in KeysOf(r)
    ensures Distinct(r + [x])
  {
    if r == [] {
      assert r + [x] == [x] && [x][1..] == [];
    } else {
      assert (r + [x])[1..] == r[1..] + [x];
      KeysOfAppend(r[1..], [x]);
      DistinctSnoc(r[1..], x);
    }
  }

  lemma BumpDistinct(r: seq<Bucket>, key: string, ws: nat, count: nat)
    requires Distinct(r)
    ensures Distinct(Bump(r, key, ws, count))
  {
    KeysWithout(r, key);
    DistinctSnoc(Without(r, key), Bucket(key, ws, count));
  }

  lemma {:induction false} BehindSnoc(r: seq<Bucket>, key: string, x: Bucket)
    requires key in KeysOf(r)
    ensures Behind(r + [x], key) == Behind(r, key) + {x.key}
  {
    assert (r + [x])[1..] == r[1..] + [x];
    if r[0].key == key { KeysOfAppend(r[1..], [x]); } else { BehindSnoc(r[1..], key, x); }
  }

  /** Moving another key to the end puts it after every bucket. */
  lemma {:induction false} BehindBump(r: seq<Bucket>, key: string, x: Bucket)
    requires Distinct(r) && key in KeysOf(r) && key != x.key
    ensures Behind(Without(r, x.key) + [x], key) == Behind(r, key) + {x.key}
  {
    var rest := r[1..];
    if r[0].key == x.key {
      BehindSnoc(rest, key, x);
    } else {
      assert Without(r, x.key) + [x] == [r[0]] + (Without(rest, x.key) + [x]);
      if r[0].key == key {
        KeysWithout(rest, x.key);
        KeysOfAppend(Without(rest, x.key), [x]);
      } else {
        BehindBump(rest, key, x);
      }
    }
  }

  lemma {:induction false} LookupSnoc(r: seq<Bucket>, key: string, x: Bucket)
    ensures Lookup(r + [x], key) ==
            if Lookup(r, key).Some? then Lookup(r, key) else if key == x.key then Some(x) else None
    ensures key !in KeysOf(r) && key == x.key ==> Behind(r + [x], key) == {}
  {
    if r == [] {
      assert r + [x] == [x] && [x][1..] == [];
    } else {
      assert (r + [x])[1..] == r[1..] + [x];
      LookupSnoc(r[1..], key, x);
    }
  }

  lemma {:induction false} LookupWithout(r: seq<Bucket>, key: string, other: string)
    requires key != other
    ensures Lookup(Without(r, other), key) == Lookup(r, key)
  {
    if r != [] { LookupWithout(r[1..], key, other); }
  }

  // ---- What eviction drops -----------------------------------------------

  /** The windows rise along the list, from lo to hi. */
  predicate Chain(r: seq<Bucket>, lo: nat, hi: nat) {
    if r == [] then lo <= hi else lo <= r[0].windowStart && Chain(r[1..], r[0].windowStart, hi)
  }

  lemma {:induction false} ChainWiden(r: seq<Bucket>, lo: nat, hi: nat, lo': nat, hi': nat)
    requires Chain(r, lo, hi) && lo' <= lo && hi <= hi'
    ensures Chain(r, lo', hi')
  {
    if r != [] { ChainWiden(r[1..], r[0].windowStart, hi, r[0].windowStart, hi'); }
  }

  lemma {:induction false} ChainDrop(r: seq<Bucket>, k: nat, lo: nat, hi: nat)
    requires Chain(r, lo, hi) && k <= |r|
    ensures Chain(r[k..], lo, hi)
  {
    if k > 0 {
      ChainWiden(r[1..], r[0].windowStart, hi, lo, hi);
      ChainDrop(r[1..], k - 1, lo, hi);
      assert r[k..] == r[1..][k - 1..];
    }
  }

  lemma {:induction false} ChainWithout(r: seq<Bucket>, key: string, lo: nat, hi: nat)
    requires Chain(r, lo, hi)
    ensures Chain(Without(r, key), lo, hi)
  {
    if r != [] {
      if r[0].key == key { ChainWiden(r[1..], r[0].windowStart, hi, lo, hi); }
      else { ChainWithout(r[1..], key, r[0].windowStart, hi); }
    }
  }

  lemma {:induction false} ChainSnoc(r: seq<Bucket>, x: Bucket, lo: nat, hi: nat)
    requires Chain(r, lo, hi) && hi <= x.windowStart
    ensures Chain(r + [x], lo, x.windowStart)
  {
    if r == [] {
      assert r + [x] == [x] && [x][1..] == [];
    } else {
      assert (r + [x])[1..] == r[1..] + [x];
      ChainSnoc(r[1..], x, r[0].windowStart, hi);
    }
  }

  /** Each bucket is of an earlier window or has at least maxKeys buckets after it, n of them outside. */
  predicate Spent(o: seq<Bucket>, n: nat, ws: nat, maxKeys: nat) {
    o == [] ||
    ((o[0].windowStart < ws || |o| - 1 + n >= maxKeys) && Spent(o[1..], n, ws, maxKeys))
  }

  lemma {:induction false} SpentMore(o: seq<Bucket>, n: nat, ws: nat, n': nat, ws': nat, maxKeys: nat)
    requires Spent(o, n, ws, maxKeys) && n <= n' && ws <= ws'
    ensures Spent(o, n', ws', maxKeys)
  {
    if o != [] { SpentMore(o[1..], n, ws, n', ws', maxKeys); }
  }

  lemma {:induction false} SpentFar(o: seq<Bucket>, n: nat, ws: nat, maxKeys: nat)
    requires n >= maxKeys
    ensures Spent(o, n, ws, maxKeys)
  {
    if o != [] { SpentFar(o[1..], n, ws, maxKeys); }
  }

  lemma {:induction false} SpentAppend(a: seq<Bucket>, b: seq<Bucket>, n: nat, ws: nat, maxKeys: nat)
    requires Spent(a, |b| + n, ws, maxKeys) && Spent(b, n, ws, maxKeys)
    ensures Spent(a + b, n, ws, maxKeys)
  {
    if a == [] { assert a + b == b; } else {
      assert (a + b)[1..] == a[1..] + b;
      SpentAppend(a[1..], b, n, ws, maxKeys);
    }
  }

  lemma {:induction false} SpentWithout(o: seq<Bucket>, key: string, n: nat, ws: nat, maxKeys: nat)
    requires Spent(o, n, ws, maxKeys)
    ensures Spent(Without(o, key), n + 1, ws, maxKeys) && |Without(o, key)| >= |o| - 1
  {
    if o != [] {
      if o[0].key == key { SpentMore(o[1..], n, ws, n + 1, ws, maxKeys); }
      else { SpentWithout(o[1..], key, n, ws, maxKeys); }
    }
  }

  lemma {:induction false} FreshAll(b: seq<Bucket>, ws: nat, lo: nat, hi: nat)
    requires Chain(b, lo, hi) && ws <= lo
    ensures Fresh(b, ws) == b
  {
    if b != [] { FreshAll(b[1..], ws, b[0].windowStart, hi); }
  }

  lemma SpentCons(b: seq<Bucket>, k: nat, n: nat, ws: nat, maxKeys: nat)
    requires b != [] && k < |b| && b[0].windowStart < ws && Spent(b[1..][..k], n, ws, maxKeys)
    ensures Spent(b[..k + 1], n, ws, maxKeys)
  {
    assert b[..k + 1][1..] == b[1..][..k];
  }

  /** The stale buckets come first. */
  lemma {:induction false} FreshDrops(b: seq<Bucket>, n: nat, ws: nat, lo: nat, hi: nat, maxKeys: nat)
    requires Chain(b, lo, hi)
    ensures var k := |b| - |Fresh(b, ws)|;
            k >= 0 && Fresh(b, ws) == b[k..] && Spent(b[..k], n, ws, maxKeys)
  {
    if b != [] {
      var rest := b[1..];
      if b[0].windowStart < ws {
        FreshDrops(rest, n, ws, b[0].windowStart, hi, maxKeys);
        var k := |rest| - |Fresh(rest, ws)|;
        assert b[k + 1..] == rest[k..];
        SpentCons(b, k, n, ws, maxKeys);
        assert Fresh(b, ws) == [] + Fresh(rest, ws) == Fresh(rest, ws);
      } else {
        FreshAll(b, ws, b[0].windowStart, hi);
      }
    }
  }

  lemma EvictSpent(o: seq<Bucket>, b: seq<Bucket>, ws: nat, hi: nat, maxKeys: nat) returns (o': seq<Bucket>)
    requires Chain(b, 0, hi) && Spent(o, |b|, ws, maxKeys)
    ensures var e := Evict(b, ws, maxKeys);
            |e| <= maxKeys && o' + e == o + b && Spent(o', |e|, ws, maxKeys)
  {
    hide Spent, Chain, Fresh;
    o' := o;
    if |b| > maxKeys {
      var f := Fresh(b, ws);
      o' := DropOld(o, b, f, ws, hi, maxKeys);
      if |f| > maxKeys { o' := DropFar(o', f, ws, maxKeys); }
    }
  }

  lemma DropOld(o: seq<Bucket>, b: seq<Bucket>, f: seq<Bucket>, ws: nat, hi: nat, maxKeys: nat) returns (o': seq<Bucket>)
    requires Chain(b, 0, hi) && Spent(o, |b|, ws, maxKeys) && f == Fresh(b, ws)
    ensures o' + f == o + b && Spent(o', |f|, ws, maxKeys)
  {
    hide Spent, Chain, Fresh;
    FreshDrops(b, |f|, ws, 0, hi, maxKeys);
    var stale := b[..|b| - |f|];
    SpentAppend(o, stale, |f|, ws, maxKeys);
    assert stale + f == b;
    o' := o + stale;
  }

  lemma DropFar(o: seq<Bucket>, f: seq<Bucket>, ws: nat, maxKeys: nat) returns (o': seq<Bucket>)
    requires Spent(o, |f|, ws, maxKeys) && |f| > maxKeys
    ensures o' + f[|f| - maxKeys..] == o + f && Spent(o', maxKeys, ws, maxKeys)
  {
    hide Spent;
    var far := f[..|f| - maxKeys];
    SpentFar(far, maxKeys, ws, maxKeys);
    SpentAppend(o, far, maxKeys, ws, maxKeys);
    assert far + f[|f| - maxKeys..] == f;
    o' := o + far;
  }

  lemma {:induction false} WithoutAppend(a: seq<Bucket>, b: seq<Bucket>, key: string)
    ensures Without(a + b, key) == if key in KeysOf(a) then Without(a, key) + b else a + Without(b, key)
  {
    if a == [] { assert a + b == b; } else {
      var rest := a[1..];
      assert (a + b)[1..] == rest + b && (a + b)[0] == a[0];
      WithoutAppend(rest, b, key);
      if a[0].key != key {
        Regroup([a[0]], Without(rest, key), b);
        Regroup([a[0]], rest, Without(b, key));
        assert [a[0]] + rest == a;
      }
    }
  }

  lemma {:induction false} WithoutSize(b: seq<Bucket>, key: string)
    ensures |b| - 1 <= |Without(b, key)| <= |b|
    ensures key !in KeysOf(b) ==> Without(b, key) == b
  {
    if b != [] { WithoutSize(b[1..], key); }
  }

  lemma BumpSpent(o: seq<Bucket>, e: seq<Bucket>, x: Bucket, ws: nat, maxKeys: nat) returns (o': seq<Bucket>)
    requires Spent(o, |e|, ws, maxKeys) && Distinct(o + e)
    ensures var b := Without(e, x.key) + [x];
            o' + b == Without(o + e, x.key) + [x] && Spent(o', |b|, ws, maxKeys)
  {
    hide Spent, Distinct, Without, KeysOf;
    WithoutAppend(o, e, x.key);
    WithoutSize(e, x.key);
    if x.key in KeysOf(o) {
      SpentWithout(o, x.key, |e|, ws, maxKeys);
      o' := Without(o, x.key);
      DistinctParts(o, e, x.key);
    } else {
      o' := o;
      SpentMore(o, |e|, ws, |Without(e, x.key)| + 1, ws, maxKeys);
    }
  }

  lemma {:induction false} DistinctParts(a: seq<Bucket>, b: seq<Bucket>, key: string)
    requires Distinct(a + b)
    ensures Distinct(b) && (key in KeysOf(a) ==> key !in KeysOf(b))
  {
    if a == [] { assert a + b == b; } else {
      assert (a + b)[1..] == a[1..] + b;
      KeysOfAppend(a[1..], b);
      DistinctParts(a[1..], b, key);
    }
  }

  /** The count found among what eviction left is the aged count. */
  lemma {:induction false} CountAgrees(o: seq<Bucket>, e: seq<Bucket>, key: string, ws: nat, maxKeys: nat)
    requires Distinct(o + e) && Spent(o, |e|, ws, maxKeys) && |e| <= maxKeys
    ensures NextCount(Lookup(e, key), ws) == AgedCount(o + e, key, ws, maxKeys)
  {
    if o == [] {
      assert o + e == e;
      LookupIn(e, key);
    } else {
      var rest := o[1..] + e;
      assert (o + e)[1..] == rest;
      if o[0].key == key {
        KeysOfSize(rest);
        DistinctParts(o, e, key);
        LookupIn(e, key);
      } else {
        CountAgrees(o[1..], e, key, ws, maxKeys);
      }
    }
  }

  function LastWindow(h: seq<Use>): nat {
    if h == [] then 0 else WindowStart(h[|h| - 1].now)
  }

  lemma WindowsGrow(a: nat, b: nat)
    requires a <= b
    ensures WindowStart(a) <= WindowStart(b)
  {
    assert a / WINDOW_MS <= b / WINDOW_MS;
  }

  lemma LastWindowGrows(h: seq<Use>)
    requires Monotone(h) && h != []
    ensures Monotone(h[..|h| - 1]) && LastWindow(h[..|h| - 1]) <= LastWindow(h)
  {
    if |h| > 1 { WindowsGrow(h[|h| - 2].now, h[|h| - 1].now); }
  }

  /** The bounded map is always the recent end of the full list, counts included. */
  lemma {:induction false} BucketsAreRecent(h: seq<Use>, maxKeys: nat) returns (dropped: seq<Bucket>)
    requires Monotone(h)
    ensures Recency(h, maxKeys) == dropped + Buckets(h, maxKeys)
    ensures Spent(dropped, |Buckets(h, maxKeys)|, LastWindow(h), maxKeys)
    ensures |Buckets(h, maxKeys)| <= maxKeys + 1
    ensures Distinct(Recency(h, maxKeys)) && Chain(Recency(h, maxKeys), 0, LastWindow(h))
  {
    dropped := [];
    if h != [] {
      var before, last, ws := h[..|h| - 1], h[|h| - 1], LastWindow(h);
      LastWindowGrows(h);
      dropped := BucketsAreRecent(before, maxKeys);
      dropped := RecentStep(dropped, Buckets(before, maxKeys), LastWindow(before), last.key, ws, maxKeys);
    }
  }

  lemma RecentStep(o: seq<Bucket>, b: seq<Bucket>, hi: nat, key: string, ws: nat, maxKeys: nat)
    returns (o': seq<Bucket>)
    requires Distinct(o + b) && Chain(o + b, 0, hi) && hi <= ws && Spent(o, |b|, hi, maxKeys)
    ensures var b', r := Consumed(b, key, ws, maxKeys), o + b;
            var r' := Bump(r, key, ws, AgedCount(r, key, ws, maxKeys));
            && r' == o' + b' && Spent(o', |b'|, ws, maxKeys) && |b'| <= maxKeys + 1
            && Distinct(r') && Chain(r', 0, ws)
  {
    SpentMore(o, |b|, hi, |b|, ws, maxKeys);
    ChainDrop(o + b, |o|, 0, hi);
    assert (o + b)[|o|..] == b;
    var e := Evict(b, ws, maxKeys);
    o' := EvictSpent(o, b, ws, hi, maxKeys);
    CountAgrees(o', e, key, ws, maxKeys);
    var x := Bucket(key, ws, AgedCount(o + b, key, ws, maxKeys));
    o' := BumpSpent(o', e, x, ws, maxKeys);
    WithoutSize(e, key);
    BumpDistinct(o + b, key, ws, x.count);
    ChainWithout(o + b, key, 0, hi);
    ChainSnoc(Without(o + b, key), x, 0, hi);
  }

  // ---- The full list and the history -------------------------------------

  /** Where a key stands in the full list, in terms of the history. */
  ghost predicate Traced(h: seq<Use>, r: seq<Bucket>, key: string, maxKeys: nat) {
    var i := LastUse(h, key);
    && (key in KeysOf(r) <==> i < |h|)
    && (i < |h| ==>
          && Behind(r, key) == KeysFrom(h, i + 1)
          && Lookup(r, key) == Some(Bucket(key, WindowStart(h[i].now), Bounded(h[..i + 1], maxKeys))))
  }

  lemma LastUseNext(h: seq<Use>, use: Use, key: string)
    ensures LastUse(h + [use], key) ==
            if key == use.key then |h| else if LastUse(h, key) < |h| then LastUse(h, key) else |h| + 1
  {
    assert (h + [use])[..|h|] == h;
  }

  lemma KeysFromNext(h: seq<Use>, use: Use, i: nat)
    requires i <= |h|
    ensures KeysFrom(h + [use], i) == KeysFrom(h, i) + {use.key}
  {
    var h' := h + [use];
    assert h'[|h|].key == use.key;
    assert forall j | i <= j < |h| :: h'[j] == h[j];
  }

  lemma AgedIsBounded(h: seq<Use>, r: seq<Bucket>, use: Use, maxKeys: nat)
    requires Traced(h, r, use.key, maxKeys)
    ensures AgedCount(r, use.key, WindowStart(use.now), maxKeys) == Bounded(h + [use], maxKeys)
  {
    assert (h + [use])[..|h|] == h;
    LookupIn(r, use.key);
  }

  lemma TracedStep(h: seq<Use>, r: seq<Bucket>, use: Use, key: string, maxKeys: nat)
    requires Distinct(r) && Traced(h, r, use.key, maxKeys) && Traced(h, r, key, maxKeys)
    ensures var ws := WindowStart(use.now);
            Traced(h + [use], Bump(r, use.key, ws, AgedCount(r, use.key, ws, maxKeys)), key, maxKeys)
  {
    AgedIsBounded(h, r, use, maxKeys);
    if key == use.key { TracedNow(h, r, use, maxKeys); }
    else { TracedBefore(h, r, use, key, Bounded(h + [use], maxKeys), maxKeys); }
  }

  lemma TracedNow(h: seq<Use>, r: seq<Bucket>, use: Use, maxKeys: nat)
    requires Distinct(r)
    ensures Traced(h + [use], Bump(r, use.key, WindowStart(use.now), Bounded(h + [use], maxKeys)), use.key, maxKeys)
  {
    hide Bounded, WindowStart, Distinct;
    var key, h', without := use.key, h + [use], Without(r, use.key);
    var x := Bucket(key, WindowStart(use.now), Bounded(h', maxKeys));
    LastUseNext(h, use, key);
    KeysWithout(r, key);
    KeysOfAppend(without, [x]);
    LookupIn(without, key);
    LookupSnoc(without, key, x);
    assert h'[..|h| + 1] == h';
    assert KeysFrom(h', |h| + 1) == {};
  }

  lemma BumpElsewhere(r: seq<Bucket>, key: string, x: Bucket)
    requires Distinct(r) && key != x.key
    ensures var r' := Without(r, x.key) + [x];
            (key in KeysOf(r') <==> key in KeysOf(r)) && Lookup(r', key) == Lookup(r, key)
  {
    hide Distinct, Behind, Without;
    var without := Without(r, x.key);
    KeysWithout(r, x.key);
    KeysOfAppend(without, [x]);
    LookupIn(without, key);
    LookupSnoc(without, key, x);
    LookupWithout(r, key, x.key);
    LookupIn(r, key);
  }

  lemma TracedBefore(h: seq<Use>, r: seq<Bucket>, use: Use, key: string, count: nat, maxKeys: nat)
    requires Distinct(r) && Traced(h, r, key, maxKeys) && key != use.key
    ensures Traced(h + [use], Bump(r, use.key, WindowStart(use.now), count), key, maxKeys)
  {
    hide Bounded, WindowStart, Distinct, Lookup, Behind, Without, KeysFrom, KeysOf, LastUse;
    var h', without, x := h + [use], Without(r, use.key), Bucket(use.key, WindowStart(use.now), count);
    LastUseNext(h, use, key);
    BumpElsewhere(r, key, x);
    var i := LastUse(h, key);
    if i < |h| {
      KeysFromNext(h, use, i + 1);
      BehindBump(r, key, x);
      assert h'[..i + 1] == h[..i + 1] && h'[i] == h[i];
    }
  }

  lemma {:induction false} RecencyTraced(h: seq<Use>, key: string, maxKeys: nat)
    requires Monotone(h)
    ensures Traced(h, Recency(h, maxKeys), key, maxKeys)
  {
    hide Traced, Bump, AgedCount, Distinct, Chain, Spent, Buckets, Monotone, Recency;
    if h == [] {
      NothingTraced(key, maxKeys);
    } else {
      var before, use := h[..|h| - 1], h[|h| - 1];
      LastWindowGrows(h);
      RecencyTraced(before, key, maxKeys);
      RecencyTraced(before, use.key, maxKeys);
      var _ := BucketsAreRecent(before, maxKeys);
      TracedStep(before, Recency(before, maxKeys), use, key, maxKeys);
      RecencyNext(before, use, maxKeys);
      assert before + [use] == h;
    }
  }

  lemma NothingTraced(key: string, maxKeys: nat)
    ensures Traced([], Recency([], maxKeys), key, maxKeys)
  {
    assert LastUse([], key) == 0;
  }

  lemma RecencyNext(h: seq<Use>, use: Use, maxKeys: nat)
    ensures var r, ws := Recency(h, maxKeys), WindowStart(use.now);
            Recency(h + [use], maxKeys) == Bump(r, use.key, ws, AgedCount(r, use.key, ws, maxKeys))
  {
    assert (h + [use])[..|h|] == h;
  }

  lemma BucketsNotEmpty(h: seq<Use>, maxKeys: nat)
    requires h != []
    ensures Buckets(h, maxKeys) != []
  {
  }

  /**
   * What the bounded map counts, from the history alone: the uses of the key in this
   * window since the last time maxKeys other keys came between two of them.
   */
  lemma LimiterCounts(h: seq<Use>, maxKeys: nat)
    requires Monotone(h) && h != []
    ensures var b := Buckets(h, maxKeys);
            && 1 <= |b| <= maxKeys + 1
            && b[|b| - 1] == Bucket(h[|h| - 1].key, LastWindow(h), Bounded(h, maxKeys))
  {
    hide Traced, Chain, Spent, Buckets, Distinct, Bounded, Monotone, Recency;
    var b := Buckets(h, maxKeys);
    BucketsNotEmpty(h, maxKeys);
    var dropped := BucketsAreRecent(h, maxKeys);
    LastOfRecency(h, maxKeys);
    assert b[|b| - 1] == Recency(h, maxKeys)[|Recency(h, maxKeys)| - 1];
  }

  lemma LastOfRecency(h: seq<Use>, maxKeys: nat)
    requires Monotone(h) && h != []
    ensures var r := Recency(h, maxKeys);
            r != [] && r[|r| - 1] == Bucket(h[|h| - 1].key, LastWindow(h), Bounded(h, maxKeys))
  {
    hide Traced, Bounded, Monotone, Recency, AgedCount, Without;
    var before, use := h[..|h| - 1], h[|h| - 1];
    assert before + [use] == h;
    LastWindowGrows(h);
    RecencyTraced(before, use.key, maxKeys);
    AgedIsBounded(before, Recency(before, maxKeys), use, maxKeys);
    RecencyNext(before, use, maxKeys);
  }

  lemma {:induction false} SpentKeeps(o: seq<Bucket>, e: seq<Bucket>, key: string, ws: nat, maxKeys: nat)
    requires Distinct(o + e) && Spent(o, |e|, ws, maxKeys) && |Behind(o + e, key)| < maxKeys
    requires Lookup(o + e, key).Some? && Lookup(o + e, key).value.windowStart >= ws
    ensures Lookup(e, key) == Lookup(o + e, key)
  {
    if o == [] { assert o + e == e; } else {
      var rest := o[1..] + e;
      assert (o + e)[1..] == rest;
      if o[0].key == key { KeysOfSize(rest); } else { SpentKeeps(o[1..], e, key, ws, maxKeys); }
    }
  }

  /** A key of this window is forgotten only after maxKeys other keys were used since. */
  lemma CurrentKeyKept(h: seq<Use>, key: string, maxKeys: nat)
    requires Monotone(h) && LastUse(h, key) < |h|
    requires WindowStart(h[LastUse(h, key)].now) == LastWindow(h)
    requires |KeysFrom(h, LastUse(h, key) + 1)| < maxKeys
    ensures Lookup(Buckets(h, maxKeys), key) ==
            Some(Bucket(key, LastWindow(h), Bounded(h[..LastUse(h, key) + 1], maxKeys)))
  {
    var dropped := BucketsAreRecent(h, maxKeys);
    RecencyTraced(h, key, maxKeys);
    SpentKeeps(dropped, Buckets(h, maxKeys), key, LastWindow(h), maxKeys);
  }

  // ---- Bounded and unbounded counts --------------------------------------

  /** No two uses of the last key in its window had maxKeys other keys between them. */
  predicate NeverPushedOut(h: seq<Use>, maxKeys: nat)
    requires h != []
    decreases |h|
  {
    var before, last := h[..|h| - 1], h[|h| - 1];
    var i := LastUse(before, last.key);
    i < |before| && WindowStart(before[i].now) == WindowStart(last.now) ==>
      |KeysFrom(before, i + 1)| < maxKeys && NeverPushedOut(before[..i + 1], maxKeys)
  }

  lemma {:induction false} ExactFromLastUse(h: seq<Use>, key: string, ws: nat)
    ensures var i := LastUse(h, key);
            Exact(h, key, ws) == if i < |h| then Exact(h[..i + 1], key, ws) else 0
  {
    if h != [] {
      var before := h[..|h| - 1];
      if h[|h| - 1].key == key {
        assert h[..|h|] == h;
      } else {
        ExactFromLastUse(before, key, ws);
        var i := LastUse(before, key);
        if i < |before| { assert before[..i + 1] == h[..i + 1]; }
      }
    }
  }

  lemma {:induction false} ExactEarlier(h: seq<Use>, key: string, ws: nat)
    requires Monotone(h) && (h != [] ==> LastWindow(h) < ws)
    ensures Exact(h, key, ws) == 0
  {
    if h != [] {
      var before := h[..|h| - 1];
      if before != [] { WindowsGrow(before[|before| - 1].now, h[|h| - 1].now); }
      ExactEarlier(before, key, ws);
    }
  }

  /**
   * The bounded limiter never counts more than the unbounded one, and counts the same
   * exactly when the key was never pushed out of this window.
   */
  lemma {:induction false} BoundedVersusExact(h: seq<Use>, maxKeys: nat)
    requires Monotone(h) && h != []
    ensures var exact := Exact(h, h[|h| - 1].key, LastWindow(h));
            && 1 <= Bounded(h, maxKeys) <= exact
            && (Bounded(h, maxKeys) == exact <==> NeverPushedOut(h, maxKeys))
    decreases |h|
  {
    var before, last, ws := h[..|h| - 1], h[|h| - 1], LastWindow(h);
    ExactFromLastUse(before, last.key, ws);
    var i := LastUse(before, last.key);
    if i < |before| {
      var until := before[..i + 1];
      assert until[|until| - 1] == before[i];
      WindowsGrow(before[i].now, last.now);
      if WindowStart(before[i].now) == ws {
        BoundedVersusExact(until, maxKeys);
      } else {
        ExactEarlier(until, last.key, ws);
      }
    }
  }

  /** How many distinct keys a window sees. */
  function WindowKeys(h: seq<Use>, ws: nat): set<string> {
    set j | 0 <= j < |h| && WindowStart(h[j].now) == ws :: h[j].key
  }

  lemma {:induction false} FewKeysNeverPushOut(h: seq<Use>, maxKeys: nat)
    requires Monotone(h) && h != [] && |WindowKeys(h, LastWindow(h))| <= maxKeys
    ensures NeverPushedOut(h, maxKeys)
    decreases |h|
  {
    hide WindowKeys, KeysFrom;
    var before, last, ws := h[..|h| - 1], h[|h| - 1], LastWindow(h);
    var i := LastUse(before, last.key);
    if i < |before| && WindowStart(before[i].now) == ws {
      NotInBetween(before, last.key);
      BetweenUses(h, i);
      var until := before[..i + 1];
      assert until == h[..i + 1] && until[i] == before[i];
      FewKeysNeverPushOut(until, maxKeys);
    }
  }

  lemma NotInBetween(h: seq<Use>, key: string)
    requires LastUse(h, key) < |h|
    ensures key !in KeysFrom(h, LastUse(h, key) + 1)
  {
  }

  lemma BetweenUses(h: seq<Use>, i: nat)
    requires Monotone(h) && i < |h| - 1 && WindowStart(h[i].now) == LastWindow(h)
    requires h[|h| - 1].key !in KeysFrom(h[..|h| - 1], i + 1)
    ensures |KeysFrom(h[..|h| - 1], i + 1)| < |WindowKeys(h, LastWindow(h))|
    ensures |WindowKeys(h[..i + 1], LastWindow(h))| <= |WindowKeys(h, LastWindow(h))|
  {
    var before, last, ws := h[..|h| - 1], h[|h| - 1], LastWindow(h);
    var others, all, early := KeysFrom(before, i + 1), WindowKeys(h, ws), WindowKeys(h[..i + 1], ws);
    assert last.key in all;
    forall k | k in others ensures k in all {
      var j :| i + 1 <= j < |before| && before[j].key == k;
      WindowsGrow(h[i].now, h[j].now);
      WindowsGrow(h[j].now, last.now);
    }
    forall k | k in early ensures k in all {
      var j :| 0 <= j < i + 1 && WindowStart(h[..i + 1][j].now) == ws && h[..i + 1][j].key == k;
      assert h[j].key == k;
    }
    SubsetSize(others, all - {last.key});
    SubsetSize(early, all);
  }

  lemma {:induction false} SubsetSize(a: set<string>, b: set<string>)
    requires a <= b
    ensures |a| <= |b|
  {
    if a != {} {
      var x :| x in a;
      SubsetSize(a - {x}, b - {x});
    }
  }

  /** While a window sees at most maxKeys keys, the two limiters give one verdict. */
  lemma SameVerdict(h: seq<Use>, maxKeys: nat)
    requires Monotone(h) && h != [] && |WindowKeys(h, LastWindow(h))| <= maxKeys
    ensures var last := h[|h| - 1]; var b := Buckets(h, maxKeys);
            && b != []
            && VerdictOf(last.key, b[|b| - 1].count, last.now) ==
               VerdictOf(last.key, Exact(h, last.key, LastWindow(h)), last.now)
  {
    LimiterCounts(h, maxKeys);
    FewKeysNeverPushOut(h, maxKeys);
    BoundedVersusExact(h, maxKeys);
  }

  // ---- Any sixty seconds -------------------------------------------------

  function One(b: bool): nat { if b then 1 else 0 }

  /** How often the key was used from one time up to another. */
  function UsesIn(h: seq<Use>, key: string, from: int, to: int): nat {
    if h == [] then 0
    else
      var last := h[|h| - 1];
      UsesIn(h[..|h| - 1], key, from, to) + One(last.key == key && from <= last.now < to)
  }

  /** How many of them an exact count lets through. */
  function Admitted(h: seq<Use>, key: string, from: int, to: int): nat {
    if h == [] then 0
    else
      var last := h[|h| - 1];
      Admitted(h[..|h| - 1], key, from, to)
      + One(last.key == key && from <= last.now < to
            && VerdictOf(key, Exact(h, key, WindowStart(last.now)), last.now).allowed)
  }

  /** And how many the bounded map lets through. */
  function AdmittedBounded(h: seq<Use>, key: string, from: int, to: int, maxKeys: nat): nat {
    if h == [] then 0
    else
      var last := h[|h| - 1];
      AdmittedBounded(h[..|h| - 1], key, from, to, maxKeys)
      + One(last.key == key && from <= last.now < to && VerdictOf(key, Bounded(h, maxKeys), last.now).allowed)
  }

  lemma InWindow(now: nat, start: nat)
    ensures WindowStart(now) == WindowStart(start) <==> WindowStart(start) <= now < WindowStart(start) + WINDOW_MS
  {
    assert now == now / WINDOW_MS * WINDOW_MS + now % WINDOW_MS;
    assert start == start / WINDOW_MS * WINDOW_MS + start % WINDOW_MS;
  }

  lemma {:induction false} ExactCountsUses(h: seq<Use>, key: string, start: nat)
    ensures Exact(h, key, WindowStart(start)) == UsesIn(h, key, WindowStart(start), WindowStart(start) + WINDOW_MS)
  {
    hide WindowStart;
    if h != [] {
      ExactCountsUses(h[..|h| - 1], key, start);
      InWindow(h[|h| - 1].now, start);
    }
  }

  lemma {:induction false} NoneLater(h: seq<Use>, key: string, from: int, to: int)
    requires Monotone(h) && (h != [] ==> h[|h| - 1].now < from)
    ensures UsesIn(h, key, from, to) == 0
  {
    if h != [] { NoneLater(h[..|h| - 1], key, from, to); }
  }

  lemma {:induction false} UsesSplit(h: seq<Use>, key: string, from: int, mid: int, to: int)
    requires from <= mid <= to
    ensures UsesIn(h, key, from, to) == UsesIn(h, key, from, mid) + UsesIn(h, key, mid, to)
  {
    if h != [] { UsesSplit(h[..|h| - 1], key, from, mid, to); }
  }

  /** The uses before a span in its first window, in the span in that window, and in the window after. */
  function SpanCount(limit: nat, before: nat, first: nat, second: nat): int {
    Min(before + first, limit) - Min(before, limit) + Min(second, limit)
  }

  lemma SpanStep(h: seq<Use>, key: string, t: nat)
    requires Monotone(h) && h != [] && h[|h| - 1].key == key && t <= h[|h| - 1].now < t + WINDOW_MS
    ensures var now := h[|h| - 1].now; var w := WindowStart(t);
            Exact(h, key, WindowStart(now)) ==
            if now < w + WINDOW_MS then UsesIn(h, key, w, t) + UsesIn(h, key, t, w + WINDOW_MS)
            else UsesIn(h, key, w + WINDOW_MS, t + WINDOW_MS)
    ensures var now := h[|h| - 1].now; var w := WindowStart(t);
            w <= t < w + WINDOW_MS && (now < w + WINDOW_MS ==> UsesIn(h, key, w + WINDOW_MS, t + WINDOW_MS) == 0)
  {
    hide WindowStart, Exact, UsesIn;
    var now, w := h[|h| - 1].now, WindowStart(t);
    WindowOf(t);
    if now < w + WINDOW_MS {
      InWindow(now, t);
      ExactCountsUses(h, key, t);
      UsesSplit(h, key, w, t, w + WINDOW_MS);
      NoneLater(h, key, w + WINDOW_MS, t + WINDOW_MS);
    } else {
      NextWindow(now, t);
      ExactCountsUses(h, key, now);
      UsesSplit(h, key, w + WINDOW_MS, t + WINDOW_MS, w + 2 * WINDOW_MS);
      NoneLater(h, key, t + WINDOW_MS, w + 2 * WINDOW_MS);
    }
  }

  lemma WindowOf(t: nat)
    ensures WindowStart(t) <= t < WindowStart(t) + WINDOW_MS
  {
  }

  lemma NextWindow(now: nat, t: nat)
    requires WindowStart(t) + WINDOW_MS <= now < t + WINDOW_MS
    ensures WindowStart(now) == WindowStart(t) + WINDOW_MS
  {
    var k := t / WINDOW_MS;
    assert (k + 1) * WINDOW_MS <= now < (k + 2) * WINDOW_MS;
    assert now / WINDOW_MS == k + 1;
  }

  lemma NothingAdmitted(key: string, t: nat)
    ensures Admitted([], key, t, t + WINDOW_MS) == 0 == Span([], key, t)
  {
  }

  /** What the uses alone say a span of sixty seconds lets through. */
  function Span(h: seq<Use>, key: string, t: nat): int {
    var w := WindowStart(t);
    SpanCount(LimitOf(key), UsesIn(h, key, w, t), UsesIn(h, key, t, w + WINDOW_MS),
              UsesIn(h, key, w + WINDOW_MS, t + WINDOW_MS))
  }

  predicate LetThrough(h: seq<Use>, use: Use, key: string, t: nat) {
    use.key == key && t <= use.now < t + WINDOW_MS && Exact(h + [use], key, WindowStart(use.now)) <= LimitOf(key)
  }

  lemma SpanBefore(h: seq<Use>, use: Use, key: string, t: nat)
    requires Monotone(h + [use]) && use.key == key && WindowStart(t) <= use.now < t
    ensures Span(h + [use], key, t) == Span(h, key, t) == 0
  {
    hide WindowStart, LimitOf, UsesIn, SpanCount;
    var w := WindowStart(t);
    MonotoneFront(h, use);
    WindowOf(t);
    NoneLater(h, key, t, w + WINDOW_MS);
    NoneLater(h, key, w + WINDOW_MS, t + WINDOW_MS);
    UsesNext(h, use, key, w, t);
    UsesNext(h, use, key, t, w + WINDOW_MS);
    UsesNext(h, use, key, w + WINDOW_MS, t + WINDOW_MS);
    SpanCountNext(LimitOf(key), UsesIn(h, key, w, t), 0, 0);
  }

  lemma SpanInside(h: seq<Use>, use: Use, key: string, t: nat)
    requires Monotone(h + [use]) && use.key == key && t <= use.now < t + WINDOW_MS
    ensures Span(h + [use], key, t) == Span(h, key, t) + One(LetThrough(h, use, key, t))
  {
    hide WindowStart, LimitOf, UsesIn, SpanCount, Exact;
    var w := WindowStart(t);
    SpanStep(h + [use], key, t);
    UsesNext(h, use, key, w, t);
    UsesNext(h, use, key, t, w + WINDOW_MS);
    UsesNext(h, use, key, w + WINDOW_MS, t + WINDOW_MS);
    SpanCountNext(LimitOf(key), UsesIn(h, key, w, t), UsesIn(h, key, t, w + WINDOW_MS),
                  UsesIn(h, key, w + WINDOW_MS, t + WINDOW_MS));
  }

  lemma SpanOutside(h: seq<Use>, use: Use, key: string, t: nat)
    requires use.key != key || use.now < WindowStart(t) || t + WINDOW_MS <= use.now
    ensures Span(h + [use], key, t) == Span(h, key, t)
  {
    hide WindowStart, LimitOf, UsesIn, SpanCount;
    var w := WindowStart(t);
    WindowOf(t);
    UsesNext(h, use, key, w, t);
    UsesNext(h, use, key, t, w + WINDOW_MS);
    UsesNext(h, use, key, w + WINDOW_MS, t + WINDOW_MS);
  }

  lemma MonotoneFront(h: seq<Use>, use: Use)
    requires Monotone(h + [use])
    ensures Monotone(h) && (h != [] ==> h[|h| - 1].now <= use.now)
  {
    var g := h + [use];
    assert forall i | 0 <= i < |h| :: g[i] == h[i];
    assert g[|h|] == use;
  }

  /** How many requests of a key any sixty seconds let through, from the uses alone. */
  lemma {:induction false} SpanFormula(h: seq<Use>, key: string, t: nat)
    requires Monotone(h)
    ensures Admitted(h, key, t, t + WINDOW_MS) == Span(h, key, t)
  {
    hide WindowStart, Exact, LimitOf, Admitted, Span, Monotone, LetThrough;
    if h == [] {
      NothingAdmitted(key, t);
    } else {
      var before, last := h[..|h| - 1], h[|h| - 1];
      assert h == before + [last];
      MonotoneFront(before, last);
      SpanFormula(before, key, t);
      AdmittedNext(before, last, key, t);
      if last.key == key && t <= last.now < t + WINDOW_MS {
        SpanInside(before, last, key, t);
      } else if last.key == key && WindowStart(t) <= last.now < t {
        SpanBefore(before, last, key, t);
        NotLet(before, last, key, t);
      } else {
        WindowOf(t);
        SpanOutside(before, last, key, t);
        NotLet(before, last, key, t);
      }
    }
  }

  lemma NotLet(h: seq<Use>, use: Use, key: string, t: nat)
    requires use.key != key || use.now < t || t + WINDOW_MS <= use.now
    ensures !LetThrough(h, use, key, t)
  {
  }

  lemma AdmittedNext(h: seq<Use>, use: Use, key: string, t: nat)
    ensures Admitted(h + [use], key, t, t + WINDOW_MS) == Admitted(h, key, t, t + WINDOW_MS) + One(LetThrough(h, use, key, t))
  {
    hide Exact, WindowStart, LimitOf;
    assert (h + [use])[..|h|] == h;
  }

  lemma SpanCountNext(limit: nat, before: nat, first: nat, second: nat)
    ensures SpanCount(limit, before, first + 1, second) ==
            SpanCount(limit, before, first, second) + One(before + first + 1 <= limit)
    ensures SpanCount(limit, before, first, second + 1) == SpanCount(limit, before, first, second) + One(second + 1 <= limit)
    ensures SpanCount(limit, before, 0, 0) == SpanCount(limit, before + 1, 0, 0) == 0
  {
  }

  /**
   * The windows are fixed, not sliding: any sixty seconds let through at most twice the
   * limit, and stay within it exactly when what the span adds to its first window, up to
   * the limit, and the uses of the next one, up to the limit, do.
   */
  lemma SpanAdmitsTwice(h: seq<Use>, key: string, t: nat)
    requires Monotone(h)
    ensures var admitted, limit, w := Admitted(h, key, t, t + WINDOW_MS), LimitOf(key), WindowStart(t);
            && admitted <= 2 * limit
            && (admitted <= limit <==>
                  Min(UsesIn(h, key, w, w + WINDOW_MS), limit) + Min(UsesIn(h, key, w + WINDOW_MS, t + WINDOW_MS), limit)
                  <= limit + Min(UsesIn(h, key, w, t), limit))
  {
    hide WindowStart, LimitOf, UsesIn, Admitted;
    WindowOf(t);
    SpanFormula(h, key, t);
    UsesSplit(h, key, WindowStart(t), t, WindowStart(t) + WINDOW_MS);
  }

  function Burst(key: string, now: nat, n: nat): seq<Use> {
    if n == 0 then [] else Burst(key, now, n - 1) + [Use(key, now)]
  }

  lemma {:induction false} BurstUses(h: seq<Use>, key: string, now: nat, n: nat, from: int, to: int)
    ensures UsesIn(h + Burst(key, now, n), key, from, to) == UsesIn(h, key, from, to) + if from <= now < to then n else 0
  {
    hide UsesIn;
    if n == 0 {
      assert h + [] == h;
    } else {
      BurstUses(h, key, now, n - 1, from, to);
      var g := h + Burst(key, now, n - 1);
      assert h + Burst(key, now, n) == g + [Use(key, now)];
      UsesNext(g, Use(key, now), key, from, to);
    }
  }

  lemma UsesNext(h: seq<Use>, use: Use, key: string, from: int, to: int)
    ensures UsesIn(h + [use], key, from, to) == UsesIn(h, key, from, to) + One(use.key == key && from <= use.now < to)
  {
    assert (h + [use])[..|h|] == h;
  }

  lemma {:induction false} BurstAll(key: string, now: nat, n: nat)
    ensures |Burst(key, now, n)| == n && forall k | 0 <= k < n :: Burst(key, now, n)[k] == Use(key, now)
  {
    if n > 0 { BurstAll(key, now, n - 1); }
  }

  lemma BurstMonotone(h: seq<Use>, key: string, now: nat, n: nat)
    requires Monotone(h) && forall i | 0 <= i < |h| :: h[i].now <= now
    ensures |Burst(key, now, n)| == n && Monotone(h + Burst(key, now, n))
    ensures forall i | 0 <= i < |h| + n :: (h + Burst(key, now, n))[i].now <= now
  {
    BurstAll(key, now, n);
  }

  /** Twice the limit is reached: as much as allowed at the end of a window, and again as the next one starts. */
  lemma TwiceIsReached(key: string) returns (h: seq<Use>, t: nat)
    ensures Monotone(h) && Admitted(h, key, t, t + WINDOW_MS) == 2 * LimitOf(key)
  {
    var n := LimitOf(key);
    t := WINDOW_MS - 1;
    var first := [] + Burst(key, t, n);
    h := first + Burst(key, t + 1, n);
    BurstMonotone([], key, t, n);
    BurstMonotone(first, key, t + 1, n);
    BurstUses([], key, t, n, 0, t);
    BurstUses([], key, t, n, t, WINDOW_MS);
    BurstUses([], key, t, n, WINDOW_MS, t + WINDOW_MS);
    BurstUses(first, key, t + 1, n, 0, t);
    BurstUses(first, key, t + 1, n, t, WINDOW_MS);
    BurstUses(first, key, t + 1, n, WINDOW_MS, t + WINDOW_MS);
    SpanFormula(h, key, t);
  }

  predicate FewKeys(h: seq<Use>, maxKeys: nat) {
    h == [] || (FewKeys(h[..|h| - 1], maxKeys) && |WindowKeys(h, LastWindow(h))| <= maxKeys)
  }

  /** The bounded map lets through no less than the exact count, and the same while windows see few keys. */
  lemma {:induction false} BoundedAdmits(h: seq<Use>, key: string, from: int, to: int, maxKeys: nat)
    requires Monotone(h)
    ensures Admitted(h, key, from, to) <= AdmittedBounded(h, key, from, to, maxKeys)
    ensures FewKeys(h, maxKeys) ==> Admitted(h, key, from, to) == AdmittedBounded(h, key, from, to, maxKeys)
  {
    hide WindowKeys, LimitOf, Bounded, Exact, WindowStart;
    if h != [] {
      BoundedAdmits(h[..|h| - 1], key, from, to, maxKeys);
      BoundedVersusExact(h, maxKeys);
      if FewKeys(h, maxKeys) { FewKeysNeverPushOut(h, maxKeys); }
    }
  }

  // ---- The limiters ------------------------------------------------------

  lemma BucketsNext(h: seq<Use>, use: Use, maxKeys: nat)
    ensures Buckets(h + [use], maxKeys) == Consumed(Buckets(h, maxKeys), use.key, WindowStart(use.now), maxKeys)
  {
    assert (h + [use])[..|h|] == h;
  }

  lemma FreshCons(x: Bucket, b: seq<Bucket>, ws: nat)
    ensures Fresh([x] + b, ws) == (if x.windowStart < ws then [] else [x]) + Fresh(b, ws)
  {
    assert ([x] + b)[1..] == b;
  }

  lemma {:induction false} FreshSnoc(b: seq<Bucket>, x: Bucket, ws: nat)
    ensures Fresh(b + [x], ws) == Fresh(b, ws) + if x.windowStart < ws then [] else [x]
  {
    if b == [] {
      assert b + [x] == [x] && [x][1..] == [];
    } else {
      FreshSnoc(b[1..], x, ws);
      FreshCons(b[0], b[1..] + [x], ws);
      assert b + [x] == [b[0]] + (b[1..] + [x]);
      Regroup(if b[0].windowStart < ws then [] else [b[0]], Fresh(b[1..], ws), if x.windowStart < ws then [] else [x]);
    }
  }

  class InMemoryRateLimiter {
    const maxKeys: nat
    var buckets: seq<Bucket>
    ghost var history: seq<Use>

    ghost predicate Valid()
      reads this
    {
      buckets == Buckets(history, maxKeys)
    }

    constructor (maxKeys: nat := 10_000)
      ensures Valid() && history == [] && this.maxKeys == maxKeys
    {
      this.maxKeys := maxKeys;
      buckets, history := [], [];
    }

    method DropStale(ws: nat)
      modifies this`buckets
      ensures buckets == Fresh(old(buckets), ws)
    {
      var all, kept := buckets, [];
      for i := 0 to |all|
        invariant kept == Fresh(all[..i], ws) && buckets == all
      {
        assert all[..i + 1] == all[..i] + [all[i]];
        FreshSnoc(all[..i], all[i], ws);
        if !(all[i].windowStart < ws) { kept := kept + [all[i]]; }
      }
      assert all[..|all|] == all;
      buckets := kept;
    }

    method MakeRoom(ws: nat)
      modifies this`buckets
      ensures buckets == Evict(old(buckets), ws, maxKeys)
    {
      hide Fresh;
      if |buckets| > maxKeys {
        DropStale(ws);
        ghost var current := buckets;
        while |buckets| > maxKeys
          invariant |buckets| <= |current| && buckets == current[|current| - |buckets|..]
          invariant |buckets| >= Min(maxKeys, |current|)
        {
          buckets := buckets[1..];
        }
        assert buckets == Newest(current, maxKeys);
      }
    }

    method Consume(key: string, now: nat) returns (verdict: Verdict)
      requires Valid()
      modifies this
      ensures Valid() && history == old(history) + [Use(key, now)]
      ensures buckets != [] && verdict == VerdictOf(key, buckets[|buckets| - 1].count, now)
      ensures verdict.allowed <==> buckets[|buckets| - 1].count <= LimitOf(key)
    {
      hide Evict, Lookup, Without, Buckets, LimitOf;
      var limit := FindLimit(key);
      var windowStart := now / WINDOW_MS * WINDOW_MS;
      assert windowStart == WindowStart(now);
      hide WindowStart, CeilSeconds;
      MakeRoom(windowStart);
      ghost var kept := buckets;
      FindLookup(kept, key);
      var p := Find(buckets, key);
      var count := if p < |buckets| && buckets[p].windowStart == windowStart then buckets[p].count else 0;
      count := count + 1;
      if p < |buckets| { buckets := buckets[..p] + buckets[p + 1..]; }
      assert buckets == Without(kept, key);
      buckets := buckets + [Bucket(key, windowStart, count)];
      BucketsNext(history, Use(key, now), maxKeys);
      history := history + [Use(key, now)];
      if count > limit {
        return Verdict(false, Max(1, CeilSeconds(windowStart + WINDOW_MS - now)));
      }
      return Verdict(true, 0);
    }
  }

  /** The Redis limiter: one counter per window and key. */
  class RedisRateLimiter {
    var counters: map<(nat, string), nat>
    ghost var history: seq<Use>

    ghost predicate Valid()
      reads this
    {
      forall w: nat, key: string ::
        (if (w, key) in counters then counters[(w, key)] else 0) == Exact(history, key, w * WINDOW_MS)
    }

    constructor ()
      ensures Valid() && history == []
    {
      counters, history := map[], [];
    }

    /** The clock is read once to count and, for a refusal, again to tell when to retry. */
    method Consume(key: string, now: nat, later: nat) returns (verdict: Verdict)
      requires Valid() && now <= later
      modifies this
      ensures Valid() && history == old(history) + [Use(key, now)]
      ensures verdict.allowed <==> Exact(history, key, WindowStart(now)) <= LimitOf(key)
      ensures verdict.allowed ==> verdict.retryAfterSeconds == 0
      ensures !verdict.allowed ==>
                WindowStart(later + 1000 * verdict.retryAfterSeconds) == WindowStart(later) + WINDOW_MS
                && 1 <= verdict.retryAfterSeconds <= WINDOW_SECONDS
      ensures WindowStart(later) == WindowStart(now) ==>
                verdict == VerdictOf(key, Exact(history, key, WindowStart(now)), later)
    {
      var limit := FindLimit(key);
      var window := now / WINDOW_MS;
      var count := (if (window, key) in counters then counters[(window, key)] else 0) + 1;
      counters := counters[(window, key) := count];
      ghost var before := history;
      history := history + [Use(key, now)];
      assert history[..|before|] == before;
      RetryLandsInNextWindow(later);
      if count > limit {
        return Verdict(false, Max(1, WINDOW_SECONDS - later / 1000 % WINDOW_SECONDS));
      }
      return Verdict(true, 0);
    }
  }
}
