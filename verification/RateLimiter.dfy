/** The gateway's fixed-window rate limiter over a shared, expiring counter store. */
module RateLimiters {
  import opened Media

  /** What the store made of an increment: done; refused; or done, but reported as an
      error. */
  datatype IncrReply = Done | Refused | Torn

  /** One call of Allow: its key, when it read the clock, and what the store answered. */
  datatype Request = Request(key: string, at: real, incr: IncrReply, expireOk: bool)

  datatype Answer = Answer(allowed: bool, failed: bool)

  datatype Counter = Counter(n: nat, expires: Option<real>)

  type Counters = map<(string, int), Counter>

  /** window: whole seconds, at least one. */
  datatype Limiter = Limiter(limit: int, window: nat)

  predicate Usable(l: Limiter, at: real) { l.window >= 1 && at >= 0.0 }

  /** The bucket of a moment: whole seconds since the epoch over the window. */
  function Bucket(l: Limiter, at: real): int
    requires Usable(l, at)
  {
    at.Floor / l.window
  }

  predicate Live(store: Counters, k: (string, int), now: real) {
    k in store && (store[k].expires.None? || now < store[k].expires.value)
  }

  function Increment(store: Counters, k: (string, int), now: real): Counter {
    if Live(store, k, now) then store[k].(n := store[k].n + 1) else Counter(1, None)
  }

  /** The store after one call. The expiry is set by the call that created the counter. */
  function After(l: Limiter, store: Counters, r: Request): Counters
    requires Usable(l, r.at)
  {
    var k := (r.key, Bucket(l, r.at));
    var c := Increment(store, k, r.at);
    if r.incr.Refused? then store
    else if r.incr.Done? && c.n == 1 && r.expireOk
    then store[k := c.(expires := Some(r.at + l.window as real))]
    else store[k := c]
  }

  /** Errors fail open. */
  function Verdict(l: Limiter, store: Counters, r: Request): Answer
    requires Usable(l, r.at)
  {
    if r.incr.Done? then Answer(Increment(store, (r.key, Bucket(l, r.at)), r.at).n <= l.limit, false)
    else Answer(true, true)
  }

  /** An increment that takes effect: one more on the counter of this key and window, or a
      fresh counter if there is none that has not expired; set to expire a window from now
      exactly by the call that finds it at one and is not refused that. */
  ghost predicate Counts(l: Limiter, before: Counters, r: Request, after: Counters)
    requires Usable(l, r.at)
  {
    var k := (r.key, r.at.Floor / l.window);
    var live := k in before && (before[k].expires == None || r.at < before[k].expires.value);
    && after.Keys == before.Keys + {k} && (forall o :: o in before && o != k ==> after[o] == before[o])
    && after[k].n == (if live then before[k].n + 1 else 1)
    && after[k].expires ==
         if r.incr.Done? && after[k].n == 1 && r.expireOk then Some(r.at + l.window as real)
         else if live then before[k].expires
         else None
  }

  class RateLimiter {
    const limiter: Limiter
    var store: Counters

    constructor (l: Limiter)
      ensures limiter == l && store == map[]
    {
      limiter, store := l, map[];
    }

    /** r.incr and r.expireOk say what the store does with the two commands. */
    method Allow(r: Request) returns (answer: Answer)
      requires Usable(limiter, r.at)
      modifies this
      ensures store == After(limiter, old(store), r)
      ensures answer == Verdict(limiter, old(store), r)
      ensures !r.incr.Done? ==> answer == Answer(true, true)
      ensures r.incr.Refused? ==> store == old(store)
      ensures r.incr.Done? ==>
        var n := store[(r.key, r.at.Floor / limiter.window)].n; answer == Answer(n <= limiter.limit, false)
      ensures !r.incr.Refused? ==> Counts(limiter, old(store), r, store)
    {
      var bucket := (r.key, Bucket(limiter, r.at));
      if !r.incr.Refused? {
        if !Live(store, bucket, r.at) {
          store := store[bucket := Counter(0, None)];
        }
        store := store[bucket := store[bucket].(n := store[bucket].n + 1)];
      }
      if !r.incr.Done? {
        return Answer(true, true);
      }
      var n := store[bucket].n;
      if n == 1 && r.expireOk {
        store := store[bucket := Counter(n, Some(r.at + limiter.window as real))];
      }
      return Answer(n <= limiter.limit, false);
    }
  }

  // ---- any sequence of calls ----

  predicate AllUsable(l: Limiter, rs: seq<Request>) { forall i :: 0 <= i < |rs| ==> Usable(l, rs[i].at) }

  function Store(l: Limiter, rs: seq<Request>): Counters
    requires AllUsable(l, rs)
  {
    if rs == [] then map[] else After(l, Store(l, rs[..|rs| - 1]), rs[|rs| - 1])
  }

  /** The answer to the i-th call. */
  function AnswerAt(l: Limiter, rs: seq<Request>, i: nat): Answer
    requires AllUsable(l, rs) && i < |rs|
  {
    Verdict(l, Store(l, rs[..i]), rs[i])
  }

  predicate Of(l: Limiter, r: Request, key: string, b: int)
    requires Usable(l, r.at)
  {
    r.key == key && Bucket(l, r.at) == b
  }

  /** Calls of key in bucket b whose increment took effect. */
  function Increments(l: Limiter, rs: seq<Request>, key: string, b: int): nat
    requires AllUsable(l, rs)
  {
    if rs == [] then 0
    else
      var n := |rs| - 1;
      Increments(l, rs[..n], key, b) + if Of(l, rs[n], key, b) && !rs[n].incr.Refused? then 1 else 0
  }

  /** Error-free calls of key in bucket b, and how many of them passed. */
  function Asked(l: Limiter, rs: seq<Request>, key: string, b: int): nat
    requires AllUsable(l, rs)
  {
    if rs == [] then 0
    else
      var n := |rs| - 1;
      Asked(l, rs[..n], key, b) + if Of(l, rs[n], key, b) && rs[n].incr.Done? then 1 else 0
  }

  predicate Passes(l: Limiter, rs: seq<Request>, i: nat)
    requires AllUsable(l, rs) && i < |rs|
  {
    rs[i].incr.Done? && AnswerAt(l, rs, i).allowed
  }

  function Passed(l: Limiter, rs: seq<Request>, key: string, b: int): nat
    requires AllUsable(l, rs)
  {
    if rs == [] then 0
    else
      var n := |rs| - 1;
      Passed(l, rs[..n], key, b) + if Of(l, rs[n], key, b) && Passes(l, rs, n) then 1 else 0
  }

  /** No counter forgets an increment of its bucket, and none can expire before its bucket
      is over. */
  ghost predicate Exact(l: Limiter, rs: seq<Request>, store: Counters)
    requires l.window >= 1 && AllUsable(l, rs)
  {
    forall key: string, b: int ::
      if (key, b) in store
      then && store[(key, b)].n == Increments(l, rs, key, b)
           && (store[(key, b)].expires.Some? ==> store[(key, b)].expires.value >= ((b + 1) * l.window) as real)
      else Increments(l, rs, key, b) == 0
  }

  lemma InsideBucket(l: Limiter, at: real)
    requires Usable(l, at)
    ensures var b := Bucket(l, at); (b * l.window) as real <= at < ((b + 1) * l.window) as real
  {
    var b, s := Bucket(l, at), at.Floor;
    assert s == b * l.window + s % l.window;
    assert b * l.window <= s <= (b + 1) * l.window - 1;
  }

  lemma OneCall(l: Limiter, rs: seq<Request>, store: Counters, r: Request)
    requires AllUsable(l, rs + [r]) && Usable(l, r.at) && AllUsable(l, rs) && Exact(l, rs, store)
    ensures Exact(l, rs + [r], After(l, store, r))
    ensures Increment(store, (r.key, Bucket(l, r.at)), r.at).n == Increments(l, rs, r.key, Bucket(l, r.at)) + 1
  {
    var b0 := Bucket(l, r.at);
    var t := After(l, store, r);
    InsideBucket(l, r.at);
    assert (b0 * l.window) as real + l.window as real == ((b0 + 1) * l.window) as real;
    assert (rs + [r])[..|rs|] == rs;
    assert (r.key, b0) in store ==> Live(store, (r.key, b0), r.at);
    forall key: string, b: int
      ensures if (key, b) in t
              then && t[(key, b)].n == Increments(l, rs + [r], key, b)
                   && (t[(key, b)].expires.Some? ==> t[(key, b)].expires.value >= ((b + 1) * l.window) as real)
              else Increments(l, rs + [r], key, b) == 0
    {
      assert (key, b) != (r.key, b0) ==> ((key, b) in t <==> (key, b) in store);
    }
  }

  /** A bucket's counter never resets within its own window, even if setting the expiry
      fails: it always holds the number of increments of that bucket. */
  lemma {:induction false} CountersNeverReset(l: Limiter, rs: seq<Request>)
    requires l.window >= 1 && AllUsable(l, rs)
    ensures Exact(l, rs, Store(l, rs))
  {
    if rs != [] {
      var n := |rs| - 1;
      CountersNeverReset(l, rs[..n]);
      assert rs == rs[..n] + [rs[n]];
      OneCall(l, rs[..n], Store(l, rs[..n]), rs[n]);
    }
  }

  /** A call without error passes exactly if fewer than limit increments of its key came
      before it in its window. */
  lemma PassesIff(l: Limiter, rs: seq<Request>, i: nat)
    requires l.window >= 1 && AllUsable(l, rs) && i < |rs| && rs[i].incr.Done?
    ensures Passes(l, rs, i) <==> Increments(l, rs[..i], rs[i].key, Bucket(l, rs[i].at)) < l.limit
  {
    CountersNeverReset(l, rs[..i]);
    OneCall(l, rs[..i], Store(l, rs[..i]), rs[i]);
  }

  /** Every answer there is: an error lets the call pass and says so; without one the call
      passes exactly if its window's earlier increments leave room. */
  lemma EveryAnswer(l: Limiter, rs: seq<Request>, i: nat)
    requires l.window >= 1 && AllUsable(l, rs) && i < |rs|
    ensures AnswerAt(l, rs, i) ==
      if rs[i].incr != Done then Answer(true, true)
      else Answer(Increments(l, rs[..i], rs[i].key, rs[i].at.Floor / l.window) < l.limit, false)
  {
    if rs[i].incr.Done? {
      PassesIff(l, rs, i);
    }
  }

  function Min(a: int, b: int): int { if a <= b then a else b }

  function Allowance(l: Limiter): nat { if l.limit < 0 then 0 else l.limit }

  predicate NoneTorn(rs: seq<Request>) { forall i :: 0 <= i < |rs| ==> !rs[i].incr.Torn? }

  lemma {:induction false} AskedIsIncrements(l: Limiter, rs: seq<Request>, key: string, b: int)
    requires AllUsable(l, rs) && NoneTorn(rs)
    ensures Asked(l, rs, key, b) == Increments(l, rs, key, b)
  {
    if rs != [] {
      AskedIsIncrements(l, rs[..|rs| - 1], key, b);
    }
  }

  lemma PassesLast(l: Limiter, rs: seq<Request>)
    requires l.window >= 1 && AllUsable(l, rs) && rs != [] && rs[|rs| - 1].incr.Done?
    ensures var n := |rs| - 1;
      Passes(l, rs, n) <==> Increments(l, rs[..n], rs[n].key, Bucket(l, rs[n].at)) < l.limit
  {
    PassesIff(l, rs, |rs| - 1);
  }

  /** Per key and window, at most limit error-free calls pass; and exactly as many as
      asked, up to the limit, unless an increment took effect but was reported as an
      error. */
  lemma {:induction false} WindowsAreExact(l: Limiter, rs: seq<Request>, key: string, b: int)
    requires l.window >= 1 && AllUsable(l, rs)
    ensures Passed(l, rs, key, b) <= Min(Increments(l, rs, key, b), Allowance(l))
    ensures NoneTorn(rs) ==> Passed(l, rs, key, b) == Min(Asked(l, rs, key, b), Allowance(l))
  {
    if rs != [] {
      var n := |rs| - 1;
      WindowsAreExact(l, rs[..n], key, b);
      if rs[n].incr.Done? {
        PassesLast(l, rs);
      }
      if NoneTorn(rs) {
        AskedIsIncrements(l, rs[..n], key, b);
      }
    }
  }

  // ---- any interval ----

  /** Error-free calls of key that passed from moment a on, for d seconds. */
  function PassedWithin(l: Limiter, rs: seq<Request>, key: string, a: real, d: nat): nat
    requires AllUsable(l, rs)
  {
    if rs == [] then 0
    else
      var n := |rs| - 1;
      PassedWithin(l, rs[..n], key, a, d) +
      if rs[n].key == key && a <= rs[n].at < a + d as real && Passes(l, rs, n) then 1 else 0
  }

  /** Passed in the m + 1 buckets from b on. */
  function PassedIn(l: Limiter, rs: seq<Request>, key: string, b: int, m: nat): nat
    requires AllUsable(l, rs)
  {
    Passed(l, rs, key, b + m) + if m == 0 then 0 else PassedIn(l, rs, key, b, m - 1)
  }

  lemma {:induction false} OneMoreIn(l: Limiter, rs: seq<Request>, key: string, b: int, m: nat)
    requires AllUsable(l, rs) && rs != []
    ensures var n := |rs| - 1;
      PassedIn(l, rs, key, b, m) == PassedIn(l, rs[..n], key, b, m) +
        if rs[n].key == key && b <= Bucket(l, rs[n].at) <= b + m && Passes(l, rs, n) then 1 else 0
  {
    if m > 0 {
      OneMoreIn(l, rs, key, b, m - 1);
    }
  }

  /** An interval of m windows meets at most m + 1 buckets. */
  lemma FewBuckets(l: Limiter, a: real, at: real, m: nat)
    requires Usable(l, a) && a <= at < a + (m * l.window) as real
    ensures Bucket(l, a) <= Bucket(l, at) <= Bucket(l, a) + m
  {
    var w := l.window;
    var s, t := a.Floor, at.Floor;
    assert s <= t <= s + m * w;
    InsideBucket(l, a);
    InsideBucket(l, at);
    var b, c := Bucket(l, a), Bucket(l, at);
    assert b * w <= s < (b + 1) * w && c * w <= t < (c + 1) * w by {
      Quotient(s, w);
      Quotient(t, w);
    }
    assert c * w < (b + 1 + m) * w;
    LessByFactor(c, b + 1 + m, w);
    assert b * w < (c + 1) * w;
    LessByFactor(b, c + 1, w);
  }

  lemma Quotient(s: int, w: nat)
    requires w >= 1
    ensures (s / w) * w <= s < (s / w + 1) * w
  {
    assert s == (s / w) * w + s % w;
  }

  lemma TimesKeepsOrder(x: int, y: int, w: nat)
    requires x <= y
    ensures x * w <= y * w
  {
    assert (y - x) * w >= 0;
    assert y * w == x * w + (y - x) * w;
  }

  lemma LessByFactor(x: int, y: int, w: nat)
    requires x * w < y * w
    ensures x < y
  {
    if x >= y {
      TimesKeepsOrder(y, x, w);
    }
  }

  lemma {:induction false} WithinIsIn(l: Limiter, rs: seq<Request>, key: string, a: real, m: nat)
    requires Usable(l, a) && AllUsable(l, rs)
    ensures PassedWithin(l, rs, key, a, m * l.window) <= PassedIn(l, rs, key, Bucket(l, a), m)
  {
    if rs != [] {
      var n := |rs| - 1;
      WithinIsIn(l, rs[..n], key, a, m);
      OneMoreIn(l, rs, key, Bucket(l, a), m);
      if a <= rs[n].at < a + (m * l.window) as real {
        FewBuckets(l, a, rs[n].at, m);
      }
    }
  }

  lemma {:induction false} AtMostLimitEach(l: Limiter, rs: seq<Request>, key: string, b: int, m: nat)
    requires l.window >= 1 && AllUsable(l, rs)
    ensures PassedIn(l, rs, key, b, m) <= (m + 1) * Allowance(l)
  {
    WindowsAreExact(l, rs, key, b + m);
    if m > 0 {
      AtMostLimitEach(l, rs, key, b, m - 1);
      assert (m + 1) * Allowance(l) == m * Allowance(l) + Allowance(l);
    }
  }

  /** In any half-open interval as long as m windows, wherever it starts, at most m + 1
      times the limit pass: twice the limit for one window. */
  lemma IntervalBound(l: Limiter, rs: seq<Request>, key: string, a: real, m: nat)
    requires Usable(l, a) && AllUsable(l, rs)
    ensures PassedWithin(l, rs, key, a, m * l.window) <= (m + 1) * Allowance(l)
  {
    WithinIsIn(l, rs, key, a, m);
    AtMostLimitEach(l, rs, key, Bucket(l, a), m);
  }
}
