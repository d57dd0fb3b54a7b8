/**
 * The fill budget of the resolve path: a cluster-wide counter per calendar second, and a
 * token bucket per process for when the counter's Redis is unreachable. Exact reals.
 */
module Throttle {
  // ---------------------------------------------------------------------------------------
  // _LocalBucket
  // ---------------------------------------------------------------------------------------

  datatype Bucket = Bucket(tokens: real, ts: real)

  function Cap(rate: real): real {
    if rate < 1.0 then 1.0 else rate
  }

  /** Tokens earned between two instants. */
  type Income = (real, real) -> real

  function PerSecond(rate: real): Income {
    (from: real, to: real) => (to - from) * rate
  }

  /** Waiting longer never earns less, and waiting twice earns the sum. */
  ghost predicate Steady(earn: Income) {
    && (forall a, b :: a <= b ==> earn(a, b) >= 0.0)
    && (forall a, b, c :: earn(a, b) + earn(b, c) == earn(a, c))
  }

  lemma PerSecondSteady(rate: real)
    requires rate >= 0.0
    ensures Steady(PerSecond(rate))
  {
    forall a, b, c
      ensures PerSecond(rate)(a, b) + PerSecond(rate)(b, c) == PerSecond(rate)(a, c)
    {
    }
    forall a, b | a <= b
      ensures PerSecond(rate)(a, b) >= 0.0
    {
    }
  }

  /** Tokens at hand when a call arrives at `now`. */
  function Refilled(b: Bucket, now: real, earn: Income, cap: real): real {
    var t := b.tokens + earn(b.ts, now);
    if t < cap then t else cap
  }

  function AfterCall(b: Bucket, now: real, earn: Income, cap: real): Bucket {
    var t := Refilled(b, now, earn, cap);
    Bucket(if t >= 1.0 then t - 1.0 else t, now)
  }

  predicate Ordered(times: seq<real>) {
    forall i, j :: 0 <= i < j < |times| ==> times[i] <= times[j]
  }

  /** How many of the calls are granted. */
  function Grants(b: Bucket, times: seq<real>, earn: Income, cap: real): nat
    decreases |times|
  {
    if times == [] then 0
    else
      (if Refilled(b, times[0], earn, cap) >= 1.0 then 1 else 0)
      + Grants(AfterCall(b, times[0], earn, cap), times[1..], earn, cap)
  }

  /** A run of calls is paid for by the tokens at its first call and by what is earned after it. */
  lemma {:induction false} GrantsPaid(b: Bucket, times: seq<real>, earn: Income, cap: real)
    requires times != [] && Ordered(times) && Steady(earn) && cap >= 1.0 && b.ts <= times[0] && b.tokens >= 0.0
    ensures Grants(b, times, earn, cap) as real <= Refilled(b, times[0], earn, cap) + earn(times[0], times[|times|-1])
    decreases |times|
  {
    var next, rest := AfterCall(b, times[0], earn, cap), times[1..];
    if rest == [] {
      assert Grants(next, rest, earn, cap) == 0;
    } else {
      GrantsPaid(next, rest, earn, cap);
      assert earn(times[0], times[1]) + earn(times[1], times[|times|-1]) == earn(times[0], times[|times|-1]);
    }
  }

  /** Any window of calls: at most cap + rate * (its length). What the bucket did before does not matter. */
  lemma {:induction false} WindowBound(b: Bucket, times: seq<real>, rate: real)
    requires times != [] && Ordered(times) && rate >= 0.0 && b.ts <= times[0] && b.tokens >= 0.0
    ensures Grants(b, times, PerSecond(rate), Cap(rate)) as real <= Cap(rate) + (times[|times|-1] - times[0]) * rate
  {
    PerSecondSteady(rate);
    GrantsPaid(b, times, PerSecond(rate), Cap(rate));
  }

  lemma {:induction false} PaidSinceCreation(born: real, times: seq<real>, earn: Income, cap: real)
    requires times != [] && Ordered(times) && Steady(earn) && cap >= 1.0 && born <= times[0]
    ensures Grants(Bucket(0.0, born), times, earn, cap) as real <= earn(born, times[|times|-1])
  {
    GrantsPaid(Bucket(0.0, born), times, earn, cap);
    assert earn(born, times[0]) + earn(times[0], times[|times|-1]) == earn(born, times[|times|-1]);
  }

  lemma PaidPerSecond(born: real, times: seq<real>, rate: real)
    requires times != [] && Ordered(times) && rate >= 0.0 && born <= times[0]
    ensures Grants(Bucket(0.0, born), times, PerSecond(rate), Cap(rate)) as real <=
              PerSecond(rate)(born, times[|times|-1])
  {
    PerSecondSteady(rate);
    PaidSinceCreation(born, times, PerSecond(rate), Cap(rate));
  }

  lemma PerSecondIs(rate: real, from: real, to: real)
    ensures PerSecond(rate)(from, to) == (to - from) * rate
  {
  }

  /** From its creation at `born` a bucket grants at most rate * (elapsed time). */
  lemma {:induction false} CreationBound(born: real, times: seq<real>, rate: real)
    requires times != [] && Ordered(times) && rate >= 0.0 && born <= times[0]
    ensures Grants(Bucket(0.0, born), times, PerSecond(rate), Cap(rate)) as real <= (times[|times|-1] - born) * rate
  {
    PaidPerSecond(born, times, rate);
    PerSecondIs(rate, born, times[|times|-1]);
  }

  /** A bucket idle for 1/rate grants the next call. */
  lemma IdleGrants(b: Bucket, now: real, rate: real)
    requires b.tokens >= 0.0 && (now - b.ts) * rate >= 1.0
    ensures Refilled(b, now, PerSecond(rate), Cap(rate)) >= 1.0
  {
    PerSecondIs(rate, b.ts, now);
  }

  /** An idle bucket is full after cap / rate, and no longer wait fills it further. */
  lemma IdleFills(b: Bucket, now: real, rate: real)
    requires b.tokens >= 0.0 && (now - b.ts) * rate >= Cap(rate)
    ensures Refilled(b, now, PerSecond(rate), Cap(rate)) == (if rate < 1.0 then 1.0 else rate)
  {
    PerSecondIs(rate, b.ts, now);
  }

  /** Calls at one instant are granted as long as there are whole tokens: n tokens give n grants. */
  lemma {:induction false} BurstSpends(b: Bucket, n: nat, rate: real)
    requires n as real <= b.tokens <= Cap(rate)
    ensures Grants(b, Repeat(b.ts, n), PerSecond(rate), Cap(rate)) == n
    decreases n
  {
    PerSecondIs(rate, b.ts, b.ts);
    if n > 0 {
      assert Refilled(b, b.ts, PerSecond(rate), Cap(rate)) == b.tokens;
      assert Repeat(b.ts, n)[1..] == Repeat(b.ts, n - 1);
      BurstSpends(Bucket(b.tokens - 1.0, b.ts), n - 1, rate);
    }
  }

  class LocalBucket {
    var tokens: real
    var ts: real

    constructor (now: real)
      ensures State() == Bucket(0.0, now)
    {
      tokens, ts := 0.0, now;
    }

    function State(): Bucket
      reads this
    {
      Bucket(tokens, ts)
    }

    method Allow(now: real, rate: real) returns (granted: bool)
      modifies this
      ensures State() == AfterCall(old(State()), now, PerSecond(rate), Cap(rate))
      ensures granted <==> Refilled(old(State()), now, PerSecond(rate), Cap(rate)) >= 1.0
      ensures var cap, earned := if rate < 1.0 then 1.0 else rate, old(tokens) + (now - old(ts)) * rate;
              var full := if earned < cap then earned else cap;
              ts == now && (granted <==> full >= 1.0) && tokens == if granted then full - 1.0 else full
    {
      var cap := if rate < 1.0 then 1.0 else rate;
      var earned := (now - ts) * rate;
      assert earned == PerSecond(rate)(ts, now);
      tokens := tokens + earned;
      if tokens >= cap {
        tokens := cap;
      }
      ts := now;
      granted := tokens >= 1.0;
      if granted {
        tokens := tokens - 1.0;
      }
    }
  }

  // ---------------------------------------------------------------------------------------
  // FillCap: INCR treg:probe:<second>, EXPIRE 2 NX
  // ---------------------------------------------------------------------------------------

  datatype Counter = Counter(n: nat, expires: real)

  type Counters = map<int, Counter>

  /** The counter of the current second, as INCR finds it. */
  function Seen(c: Counters, now: real): nat {
    if now.Floor in c && now < c[now.Floor].expires then c[now.Floor].n else 0
  }

  function Incremented(c: Counters, now: real): Counters {
    var live := now.Floor in c && now < c[now.Floor].expires;
    c[now.Floor := Counter(Seen(c, now) + 1, if live then c[now.Floor].expires else now + 2.0)]
  }

  /** A counter never expires inside the second it counts. */
  ghost predicate Lasting(c: Counters) {
    forall s :: s in c ==> c[s].expires >= s as real + 2.0
  }

  /** Granted calls whose time satisfies the window [from, from + 1). */
  function GrantedIn(c: Counters, times: seq<real>, limit: nat, from: real): nat
    decreases |times|
  {
    if times == [] then 0
    else (if Seen(c, times[0]) < limit && from <= times[0] < from + 1.0 then 1 else 0)
         + GrantedIn(Incremented(c, times[0]), times[1..], limit, from)
  }

  function Left(c: Counters, second: int, limit: nat): nat {
    if second in c && c[second].n <= limit then limit - c[second].n else if second in c then 0 else limit
  }

  /** One call uses up budget of its own second only. */
  lemma CallUses(c: Counters, now: real, limit: nat, second: int)
    requires Lasting(c)
    ensures Lasting(Incremented(c, now))
    ensures Left(Incremented(c, now), second, limit) ==
              Left(c, second, limit) - (if now.Floor == second && Seen(c, now) < limit then 1 else 0)
  {
  }

  /** Calls in the calendar second `second`: at most what is left of its limit. */
  lemma {:induction false} SecondBound(c: Counters, times: seq<real>, limit: nat, second: int)
    requires Lasting(c)
    ensures GrantedIn(c, times, limit, second as real) <= Left(c, second, limit)
    decreases |times|
  {
    if times != [] {
      CallUses(c, times[0], limit, second);
      SecondBound(Incremented(c, times[0]), times[1..], limit, second);
    }
  }

  /** Any one-second interval meets two calendar seconds, so at most twice the limit passes. */
  lemma {:induction false} SlidingBound(c: Counters, times: seq<real>, limit: nat, from: real)
    requires Lasting(c)
    ensures GrantedIn(c, times, limit, from) <= Left(c, from.Floor, limit) + Left(c, from.Floor + 1, limit)
    ensures GrantedIn(c, times, limit, from) <= 2 * limit
    decreases |times|
  {
    if times != [] {
      CallUses(c, times[0], limit, from.Floor);
      CallUses(c, times[0], limit, from.Floor + 1);
      SlidingBound(Incremented(c, times[0]), times[1..], limit, from);
    }
  }

  /** Twice the limit does pass at a window boundary, for every limit. */
  lemma SlidingBoundReached(limit: nat)
    requires limit > 0
    ensures GrantedIn(map[], Repeat(0.75, limit) + Repeat(1.25, limit), limit, 0.5) == 2 * limit
  {
    BurstGranted(map[], 0.75, limit, 0, Repeat(1.25, limit), limit, 0.5);
    var c := AfterBurst(map[], 0.75, limit);
    AfterBurstOther(map[], 0.75, limit, 1);
    BurstGranted(c, 1.25, limit, 0, [], limit, 0.5);
    assert Repeat(1.25, limit) + [] == Repeat(1.25, limit);
  }

  function Repeat(t: real, n: nat): seq<real> {
    if n == 0 then [] else [t] + Repeat(t, n - 1)
  }

  function AfterBurst(c: Counters, t: real, n: nat): Counters
    decreases n
  {
    if n == 0 then c else AfterBurst(Incremented(c, t), t, n - 1)
  }

  lemma {:induction false} BurstGranted(c: Counters, t: real, n: nat, used: nat, more: seq<real>, limit: nat,
                                        from: real)
    requires Lasting(c) && from <= t < from + 1.0 && used + n <= limit
    requires Left(c, t.Floor, limit) == limit - used && Seen(c, t) == used
    ensures GrantedIn(c, Repeat(t, n) + more, limit, from) == n + GrantedIn(AfterBurst(c, t, n), more, limit, from)
    decreases n
  {
    if n == 0 {
      assert Repeat(t, n) + more == more;
    } else {
      assert (Repeat(t, n) + more)[1..] == Repeat(t, n - 1) + more;
      CallUses(c, t, limit, t.Floor);
      BurstGranted(Incremented(c, t), t, n - 1, used + 1, more, limit, from);
    }
  }

  lemma {:induction false} AfterBurstOther(c: Counters, t: real, n: nat, second: int)
    requires Lasting(c) && t.Floor != second && second !in c
    ensures Lasting(AfterBurst(c, t, n)) && second !in AfterBurst(c, t, n)
    decreases n
  {
    if n > 0 {
      CallUses(c, t, 0, second);
      AfterBurstOther(Incremented(c, t), t, n - 1, second);
    }
  }

  class FillCap {
    var counters: Counters
    const local: LocalBucket

    constructor (local: LocalBucket)
      ensures counters == map[] && this.local == local
    {
      this.local := local;
      counters := map[];
    }

    /** allow(): the shared counter, or the process's own bucket when Redis fails. */
    method Allow(now: real, limit: nat, localRate: real, redisUp: bool) returns (granted: bool)
      modifies this`counters, local
      ensures redisUp ==> counters == Incremented(old(counters), now) && (granted <==> Seen(old(counters), now) < limit)
      ensures redisUp ==>
                var sec, c := now.Floor, old(counters);
                var live := sec in c && now < c[sec].expires;
                && counters == c[sec := if live then Counter(c[sec].n + 1, c[sec].expires) else Counter(1, now + 2.0)]
                && (granted <==> (if live then c[sec].n + 1 else 1) <= limit)
      ensures redisUp ==> local.State() == old(local.State())
      ensures !redisUp ==> counters == old(counters)
      ensures !redisUp ==> local.State() == AfterCall(old(local.State()), now, PerSecond(localRate), Cap(localRate))
      ensures !redisUp ==> (granted <==> Refilled(old(local.State()), now, PerSecond(localRate), Cap(localRate)) >= 1.0)
    {
      if !redisUp {
        granted := local.Allow(now, localRate);
        return;
      }
      var second := now.Floor;
      var live := second in counters && now < counters[second].expires;
      var n := if live then counters[second].n + 1 else 1;
      counters := counters[second := Counter(n, if live then counters[second].expires else now + 2.0)];
      granted := n <= limit;
    }
  }
}
