/**
 The per-key rate limiter with lazily evicted buckets, against a limiter that
 never forgets a key. Time is counted in whole ticks; a bucket is the ideal
 token bucket: full at first, refilled linearly, capped at the burst.
 */
module RateLimit {

  /** `rate` is in tokens per tick, `gap` is the cleanup gap in ticks. */
  datatype Config = Config(rate: real, burst: nat, gap: nat)

  ghost predicate Sensible(cfg: Config) {
    cfg.rate >= 0.0
  }

  datatype Bucket = Bucket(tokens: real, last: int)

  function Refill(cfg: Config, ticks: int): (r: real) {
    cfg.rate * ticks as real
  }

  /** The tokens in a bucket at a time; a clock that went back adds none. */
  function Level(cfg: Config, b: Bucket, now: int): (l: real) {
    var filled := b.tokens + Refill(cfg, if now < b.last then 0 else now - b.last);
    if filled > cfg.burst as real then cfg.burst as real else filled
  }

  function Full(cfg: Config, now: int): (b: Bucket) {
    Bucket(cfg.burst as real, now)
  }

  /** Spend a token if there is one; a refusal leaves the bucket alone. */
  function Spend(cfg: Config, b: Bucket, now: int): (r: (Bucket, bool)) {
    if Level(cfg, b, now) >= 1.0 then (Bucket(Level(cfg, b, now) - 1.0, now), true) else (b, false)
  }

  // ----- the limiter as a state machine -----

  datatype Seen = Seen(bucket: Bucket, lastSeen: int)

  datatype State = State(visitors: map<string, Seen>, lastClean: int)

  datatype Request = Request(key: string, now: int)

  /** The visitor entry as `allow` first touches it. */
  function Touched(cfg: Config, s: State, q: Request): (v: Seen) {
    if q.key in s.visitors then s.visitors[q.key].(lastSeen := q.now) else Seen(Full(cfg, q.now), q.now)
  }

  function Survivors(cfg: Config, visitors: map<string, Seen>, now: int): (r: map<string, Seen>) {
    map k | k in visitors && now - visitors[k].lastSeen <= cfg.gap :: visitors[k]
  }

  /** The visitor found or made, and stamped. */
  function TouchOn(cfg: Config, s: State, q: Request): (r: State) {
    s.(visitors := s.visitors[q.key := Touched(cfg, s, q)])
  }

  /** The lazy cleanup: nothing until a gap has passed since the last one. */
  function CleanOn(cfg: Config, s: State, now: int): (r: State) {
    if now - s.lastClean > cfg.gap then State(Survivors(cfg, s.visitors, now), now) else s
  }

  /** The served visitor's bucket pays, whatever the cleanup did. */
  function Step(cfg: Config, s: State, q: Request): (r: (State, bool)) {
    var touched := TouchOn(cfg, s, q);
    var v := touched.visitors[q.key];
    var cleaned := CleanOn(cfg, touched, q.now);
    var (b, ok) := Spend(cfg, v.bucket, q.now);
    (cleaned.(visitors := cleaned.visitors[q.key := v.(bucket := b)]), ok)
  }

  /** The visitor being served is never the one evicted. */
  lemma ServedIsKept(cfg: Config, s: State, q: Request)
    ensures var touched := TouchOn(cfg, s, q);
            var cleaned := CleanOn(cfg, touched, q.now);
            q.key in touched.visitors && q.key in cleaned.visitors
            && cleaned.visitors[q.key] == touched.visitors[q.key]
  {
  }

  function Decisions(cfg: Config, s: State, trace: seq<Request>): (ds: seq<bool>)
    ensures |ds| == |trace|
    decreases |trace|
  {
    if trace == [] then [] else
      var (s1, ok) := Step(cfg, s, trace[0]);
      [ok] + Decisions(cfg, s1, trace[1..])
  }

  // ----- the limiter that never evicts -----

  type Ledger = map<string, Bucket>

  function BucketOf(cfg: Config, m: Ledger, q: Request): (b: Bucket) {
    if q.key in m then m[q.key] else Full(cfg, q.now)
  }

  function RefStep(cfg: Config, m: Ledger, q: Request): (r: (Ledger, bool)) {
    var (b, ok) := Spend(cfg, BucketOf(cfg, m, q), q.now);
    (m[q.key := b], ok)
  }

  function RefDecisions(cfg: Config, m: Ledger, trace: seq<Request>): (ds: seq<bool>)
    ensures |ds| == |trace|
    decreases |trace|
  {
    if trace == [] then [] else
      var (m1, ok) := RefStep(cfg, m, trace[0]);
      [ok] + RefDecisions(cfg, m1, trace[1..])
  }

  ghost predicate Forward(trace: seq<Request>, from: int) {
    && (trace != [] ==> trace[0].now >= from)
    && forall i, j :: 0 <= i < j < |trace| ==> trace[i].now <= trace[j].now
  }

  // ----- the program -----

  class Limiter {
    const cfg: Config
    var tokens: real
    var last: int

    constructor (cfg: Config, now: int)
      ensures this.cfg == cfg && View() == Full(cfg, now)
    {
      this.cfg, tokens, last := cfg, cfg.burst as real, now;
    }

    function View(): (b: Bucket)
      reads this
    {
      Bucket(tokens, last)
    }

    method Allow(now: int) returns (ok: bool)
      modifies this
      ensures (View(), ok) == Spend(cfg, old(View()), now)
    {
      var level := Level(cfg, Bucket(tokens, last), now);
      ok := level >= 1.0;
      if ok {
        tokens, last := level - 1.0, now;
      }
    }
  }

  class Visitor {
    const limiter: Limiter
    var lastSeen: int

    constructor (limiter: Limiter, now: int)
      ensures this.limiter == limiter && lastSeen == now
    {
      this.limiter, lastSeen := limiter, now;
    }

    function View(): (v: Seen)
      reads this, limiter
    {
      Seen(limiter.View(), lastSeen)
    }
  }

  class RateLimiter {
    const cfg: Config
    var visitors: map<string, Visitor>
    var lastClean: int

    /** No two keys share a visitor or a bucket. */
    ghost predicate Valid()
      reads this
    {
      && (forall k :: k in visitors ==> visitors[k].limiter.cfg == cfg)
      && forall j, k :: j in visitors && k in visitors && j != k ==>
           visitors[j] != visitors[k] && visitors[j].limiter != visitors[k].limiter
    }

    ghost function Repr(): (os: set<object>)
      reads this
    {
      (set k | k in visitors :: visitors[k] as object) + (set k | k in visitors :: visitors[k].limiter as object)
    }

    function View(): (s: State)
      reads this, Repr()
    {
      State(map k | k in visitors :: visitors[k].View(), lastClean)
    }

    constructor (cfg: Config, now: int)
      ensures Valid() && fresh(Repr()) && this.cfg == cfg && View() == State(map[], now)
    {
      this.cfg := cfg;
      visitors := map[];
      lastClean := now;
    }

    /** Drop every visitor not seen for longer than the gap. */
    method Evict(now: int)
      requires Valid()
      modifies this
      ensures Valid() && Repr() <= old(Repr()) && lastClean == old(lastClean)
      ensures forall k :: k in visitors <==> k in old(visitors) && now - old(visitors)[k].lastSeen <= cfg.gap
      ensures forall k :: k in visitors ==> visitors[k] == old(visitors)[k]
    {
      var todo := visitors.Keys;
      while exists k :: k in todo
        invariant todo <= old(visitors).Keys && visitors.Keys <= old(visitors).Keys
        invariant forall k :: k in visitors ==> visitors[k] == old(visitors)[k]
        invariant forall k :: k in old(visitors) ==>
                    (k in visitors <==> k in todo || now - old(visitors)[k].lastSeen <= cfg.gap)
        invariant lastClean == old(lastClean)
        decreases todo
      {
        var k :| k in todo;
        if now - visitors[k].lastSeen > cfg.gap {
          visitors := visitors - {k};
        }
        todo := todo - {k};
      }
    }

    /** Find or make the visitor of a key, and note when it was seen. */
    method Touch(key: string, now: int) returns (v: Visitor)
      requires Valid()
      modifies this, Repr()
      ensures Valid() && fresh(Repr() - old(Repr())) && lastClean == old(lastClean)
      ensures key in visitors && visitors[key] == v && v.limiter in Repr()
      ensures View() == TouchOn(cfg, old(View()), Request(key, now))
    {
      if key in visitors {
        v := visitors[key];
        v.lastSeen := now;
      } else {
        v := Admit(key, now);
      }
    }

    /** A visitor not seen before, with a full bucket. */
    method Admit(key: string, now: int) returns (v: Visitor)
      requires Valid() && key !in visitors
      modifies this
      ensures Valid() && fresh(Repr() - old(Repr())) && lastClean == old(lastClean)
      ensures key in visitors && visitors[key] == v && v.limiter in Repr()
      ensures View() == TouchOn(cfg, old(View()), Request(key, now))
    {
      var limiter := new Limiter(cfg, now);
      v := new Visitor(limiter, now);
      visitors := visitors[key := v];
    }

    /** Evict once per gap. */
    method CleanIfDue(now: int)
      requires Valid()
      modifies this
      ensures Valid() && Repr() <= old(Repr())
      ensures forall k :: k in visitors ==> k in old(visitors) && visitors[k] == old(visitors)[k]
      ensures View() == CleanOn(cfg, old(View()), now)
    {
      if now - lastClean > cfg.gap {
        Evict(now);
        lastClean := now;
      }
    }

    /** Take a token from the bucket of a key. */
    method Take(key: string, now: int) returns (ok: bool)
      requires Valid() && key in visitors
      modifies visitors[key].limiter
      ensures Valid()
      ensures var (b, allowed) := Spend(cfg, old(View()).visitors[key].bucket, now);
              && ok == allowed
              && View() == old(View()).(visitors := old(View()).visitors[key := old(View()).visitors[key].(bucket := b)])
    {
      ok := visitors[key].limiter.Allow(now);
    }

    method Allow(key: string, now: int) returns (ok: bool)
      requires Valid()
      modifies this, Repr()
      ensures Valid() && fresh(Repr() - old(Repr()))
      ensures (View(), ok) == Step(cfg, old(View()), Request(key, now))
    {
      hide Spend, TouchOn, CleanOn;
      ServedIsKept(cfg, View(), Request(key, now));
      var v := Touch(key, now);
      CleanIfDue(now);
      assert key in View().visitors;
      ok := Take(key, now);
    }
  }

  // ----- eviction cannot be observed -----

  lemma RefillGrows(cfg: Config, a: int, b: int)
    requires Sensible(cfg) && a <= b
    ensures Refill(cfg, a) <= Refill(cfg, b)
    ensures a >= 0 ==> Refill(cfg, a) >= 0.0
    ensures Refill(cfg, b) == Refill(cfg, a) + Refill(cfg, b - a)
  {
    assert b as real == a as real + (b - a) as real;
    ProductNonnegative(cfg.rate, (b - a) as real);
    if a >= 0 {
      ProductNonnegative(cfg.rate, a as real);
    }
  }

  lemma ProductNonnegative(x: real, y: real)
    requires x >= 0.0 && y >= 0.0
    ensures x * y >= 0.0
  {
  }

  /** A bucket in use: not overdrawn and last refilled in the past. */
  ghost predicate Sound(cfg: Config, b: Bucket, clock: int) {
    0.0 <= b.tokens <= cfg.burst as real && b.last <= clock
  }

  lemma LevelGrows(cfg: Config, b: Bucket, clock: int, now: int)
    requires Sensible(cfg) && Sound(cfg, b, clock) && clock <= now
    ensures 0.0 <= Level(cfg, b, clock) <= Level(cfg, b, now) <= cfg.burst as real
    ensures Level(cfg, b, now) <= Level(cfg, b, clock) + Refill(cfg, now - clock)
  {
    RefillGrows(cfg, clock - b.last, now - b.last);
    RefillGrows(cfg, 0, clock - b.last);
    RefillGrows(cfg, 0, now - clock);
  }

  /** Two buckets no later request can tell apart: equal, or both full. */
  ghost predicate Alike(cfg: Config, a: Bucket, b: Bucket, clock: int) {
    a == b || (Level(cfg, a, clock) == Level(cfg, b, clock) == cfg.burst as real)
  }

  /** What links the two limiters on a key after requests up to `clock`. */
  ghost predicate LinkedAt(cfg: Config, s: State, m: Ledger, clock: int, k: string) {
    && (k in s.visitors ==>
          && k in m && Sound(cfg, s.visitors[k].bucket, s.visitors[k].lastSeen)
          && m[k].last <= s.visitors[k].lastSeen <= clock
          && Alike(cfg, s.visitors[k].bucket, m[k], clock))
    && (k in m ==> Sound(cfg, m[k], clock) && (k !in s.visitors ==> Level(cfg, m[k], clock) == cfg.burst as real))
  }

  ghost predicate Linked(cfg: Config, s: State, m: Ledger, clock: int) {
    forall k :: LinkedAt(cfg, s, m, clock, k)
  }

  /** The exact condition: a bucket idle past the gap has refilled. */
  ghost predicate RefillsWithinGap(cfg: Config) {
    cfg.rate * (cfg.gap + 1) as real >= cfg.burst as real
  }

  /** A tick brings `rate` tokens. */
  lemma RefillIs(cfg: Config, ticks: int)
    ensures Refill(cfg, ticks) == cfg.rate * ticks as real
  {
  }

  lemma IdleIsFull(cfg: Config, b: Bucket, lastSeen: int, now: int)
    requires Sensible(cfg) && RefillsWithinGap(cfg)
    requires 0.0 <= b.tokens && b.last <= lastSeen && now - lastSeen > cfg.gap
    ensures Level(cfg, b, now) == cfg.burst as real
  {
    RefillIs(cfg, cfg.gap + 1);
    RefillGrows(cfg, cfg.gap + 1, now - b.last);
  }

  lemma SpendAlike(cfg: Config, a: Bucket, b: Bucket, clock: int, now: int)
    requires Sensible(cfg) && Sound(cfg, a, clock) && Sound(cfg, b, clock) && clock <= now
    requires Alike(cfg, a, b, clock)
    ensures var (a1, okA) := Spend(cfg, a, now);
            var (b1, okB) := Spend(cfg, b, now);
            && okA == okB && Alike(cfg, a1, b1, now)
            && Sound(cfg, a1, now) && Sound(cfg, b1, now)
  {
    LevelGrows(cfg, a, clock, now);
    LevelGrows(cfg, b, clock, now);
  }

  lemma AlikeStays(cfg: Config, a: Bucket, b: Bucket, clock: int, now: int)
    requires Sensible(cfg) && Sound(cfg, a, clock) && Sound(cfg, b, clock) && clock <= now
    requires Alike(cfg, a, b, clock)
    ensures Alike(cfg, a, b, now)
  {
    LevelGrows(cfg, a, clock, now);
    LevelGrows(cfg, b, clock, now);
  }

  lemma StepStaysLinked(cfg: Config, s: State, m: Ledger, clock: int, q: Request)
    requires Sensible(cfg) && RefillsWithinGap(cfg) && Linked(cfg, s, m, clock) && clock <= q.now
    ensures Step(cfg, s, q).1 == RefStep(cfg, m, q).1
    ensures Linked(cfg, Step(cfg, s, q).0, RefStep(cfg, m, q).0, q.now)
  {
    hide LinkedAt, Step, RefStep;
    var s1, m1 := Step(cfg, s, q).0, RefStep(cfg, m, q).0;
    assert LinkedAt(cfg, s, m, clock, q.key);
    ServedStaysLinked(cfg, s, m, clock, q);
    forall k ensures LinkedAt(cfg, s1, m1, q.now, k) {
      assert LinkedAt(cfg, s, m, clock, k);
      if k != q.key {
        OtherStaysLinked(cfg, s, m, clock, q, k);
      }
    }
  }

  lemma ServedStaysLinked(cfg: Config, s: State, m: Ledger, clock: int, q: Request)
    requires Sensible(cfg) && LinkedAt(cfg, s, m, clock, q.key) && clock <= q.now
    ensures Step(cfg, s, q).1 == RefStep(cfg, m, q).1
    ensures LinkedAt(cfg, Step(cfg, s, q).0, RefStep(cfg, m, q).0, q.now, q.key)
  {
    hide Level, Spend, Alike;
    var a, b := Touched(cfg, s, q).bucket, BucketOf(cfg, m, q);
    ServedLinked(cfg, s, m, clock, q);
    SpendAlike(cfg, a, b, q.now, q.now);
    SpendStamps(cfg, a, q.now);
    SpendStamps(cfg, b, q.now);
  }

  /** What a request does to the link of any other key. */
  lemma OtherStaysLinked(cfg: Config, s: State, m: Ledger, clock: int, q: Request, k: string)
    requires Sensible(cfg) && RefillsWithinGap(cfg) && LinkedAt(cfg, s, m, clock, k) && clock <= q.now
    requires k != q.key
    ensures LinkedAt(cfg, Step(cfg, s, q).0, RefStep(cfg, m, q).0, q.now, k)
  {
    hide Level, Spend, Alike;
    if k in m {
      LevelGrows(cfg, m[k], clock, q.now);
      if k in s.visitors {
        AlikeStays(cfg, s.visitors[k].bucket, m[k], clock, q.now);
        if k !in Step(cfg, s, q).0.visitors {
          IdleIsFull(cfg, m[k], s.visitors[k].lastSeen, q.now);
        }
      }
    }
  }

  lemma SpendStamps(cfg: Config, b: Bucket, now: int)
    requires b.last <= now
    ensures Spend(cfg, b, now).0.last <= now
  {
  }

  /** The served key starts alike on both sides, evicted before or not. */
  lemma ServedLinked(cfg: Config, s: State, m: Ledger, clock: int, q: Request)
    requires Sensible(cfg) && LinkedAt(cfg, s, m, clock, q.key) && clock <= q.now
    ensures var a, b := Touched(cfg, s, q).bucket, BucketOf(cfg, m, q);
            Sound(cfg, a, q.now) && Sound(cfg, b, q.now) && Alike(cfg, a, b, q.now)
  {
    RefillGrows(cfg, 0, 0);
    if q.key in s.visitors {
      AlikeStays(cfg, s.visitors[q.key].bucket, m[q.key], clock, q.now);
    } else if q.key in m {
      LevelGrows(cfg, m[q.key], clock, q.now);
    }
  }

  lemma {:induction false} LinkedDecideAlike(cfg: Config, s: State, m: Ledger, clock: int, trace: seq<Request>)
    requires Sensible(cfg) && RefillsWithinGap(cfg) && Linked(cfg, s, m, clock) && Forward(trace, clock)
    ensures Decisions(cfg, s, trace) == RefDecisions(cfg, m, trace)
    decreases |trace|
  {
    hide Step, RefStep, Linked;
    if trace != [] {
      StepStaysLinked(cfg, s, m, clock, trace[0]);
      LinkedDecideAlike(cfg, Step(cfg, s, trace[0]).0, RefStep(cfg, m, trace[0]).0, trace[0].now, trace[1..]);
    }
  }

  /** No trace of requests from the start shows an eviction. */
  ghost predicate Transparent(cfg: Config) {
    forall start: int, trace: seq<Request> {:trigger Forward(trace, start)} ::
      Forward(trace, start) ==> Decisions(cfg, State(map[], start), trace) == RefDecisions(cfg, map[], trace)
  }

  // ----- and only then -----

  /** n requests of one key at one time. */
  function Volley(key: string, now: int, n: nat): (trace: seq<Request>)
    ensures |trace| == n && forall i :: 0 <= i < n ==> trace[i] == Request(key, now)
  {
    seq(n, _ => Request(key, now))
  }

  function AllTrue(n: nat): (ds: seq<bool>)
    ensures |ds| == n && forall i :: 0 <= i < n ==> ds[i]
  {
    seq(n, _ => true)
  }

  lemma AllTrueCons(n: nat, rest: seq<bool>)
    requires n >= 1
    ensures [true] + (AllTrue(n - 1) + rest) == AllTrue(n) + rest
  {
  }

  /** The state with t tokens left for a key just served. */
  function WithTokens(s: State, key: string, now: int, t: real): (r: State) {
    s.(visitors := s.visitors[key := Seen(Bucket(t, now), now)])
  }

  lemma ServeOne(cfg: Config, s: State, key: string, now: int, t: real)
    requires now - s.lastClean <= cfg.gap && 1.0 <= t <= cfg.burst as real
    ensures Step(cfg, WithTokens(s, key, now, t), Request(key, now)) == (WithTokens(s, key, now, t - 1.0), true)
  {
    assert Level(cfg, Bucket(t, now), now) == t;
    assert s.visitors[key := Seen(Bucket(t, now), now)][key := Seen(Bucket(t, now), now)]
        == s.visitors[key := Seen(Bucket(t, now), now)];
    assert s.visitors[key := Seen(Bucket(t, now), now)][key := Seen(Bucket(t - 1.0, now), now)]
        == s.visitors[key := Seen(Bucket(t - 1.0, now), now)];
  }

  /** With tokens for all, a volley is allowed and costs one token each. */
  lemma {:induction false} VolleyPasses(cfg: Config, s: State, key: string, now: int, t: real, n: nat, rest: seq<Request>)
    requires now - s.lastClean <= cfg.gap && n as real <= t <= cfg.burst as real
    ensures Decisions(cfg, WithTokens(s, key, now, t), Volley(key, now, n) + rest)
         == AllTrue(n) + Decisions(cfg, WithTokens(s, key, now, t - n as real), rest)
    decreases n
  {
    hide WithTokens, Step;
    var trace := Volley(key, now, n) + rest;
    if n == 0 {
      assert trace == rest;
      assert t - 0.0 == t;
    } else {
      ServeOne(cfg, s, key, now, t);
      assert trace[0] == Request(key, now) && trace[1..] == Volley(key, now, n - 1) + rest;
      VolleyPasses(cfg, s, key, now, t - 1.0, n - 1, rest);
      AllTrueCons(n, Decisions(cfg, WithTokens(s, key, now, t - n as real), rest));
      assert t - 1.0 - (n - 1) as real == t - n as real;
    }
  }

  lemma RefServeOne(cfg: Config, m: Ledger, key: string, now: int, t: real)
    requires 1.0 <= t <= cfg.burst as real
    ensures RefStep(cfg, m[key := Bucket(t, now)], Request(key, now)) == (m[key := Bucket(t - 1.0, now)], true)
  {
    assert Level(cfg, Bucket(t, now), now) == t;
    assert m[key := Bucket(t, now)][key := Bucket(t - 1.0, now)] == m[key := Bucket(t - 1.0, now)];
  }

  /** The same for the limiter that never evicts. */
  lemma {:induction false} RefVolleyPasses(cfg: Config, m: Ledger, key: string, now: int, t: real, n: nat,
                                           rest: seq<Request>)
    requires n as real <= t <= cfg.burst as real
    ensures RefDecisions(cfg, m[key := Bucket(t, now)], Volley(key, now, n) + rest)
         == AllTrue(n) + RefDecisions(cfg, m[key := Bucket(t - n as real, now)], rest)
    decreases n
  {
    hide RefStep;
    var trace := Volley(key, now, n) + rest;
    if n == 0 {
      assert trace == rest;
      assert t - 0.0 == t;
    } else {
      RefServeOne(cfg, m, key, now, t);
      assert trace[0] == Request(key, now) && trace[1..] == Volley(key, now, n - 1) + rest;
      RefVolleyPasses(cfg, m, key, now, t - 1.0, n - 1, rest);
      AllTrueCons(n, RefDecisions(cfg, m[key := Bucket(t - n as real, now)], rest));
      assert t - 1.0 - (n - 1) as real == t - n as real;
    }
  }

  /** A volley longer than the level has a refusal in it. */
  lemma {:induction false} RefVolleyRefused(cfg: Config, m: Ledger, key: string, now: int, n: nat)
    requires key in m && n >= 1 && Level(cfg, m[key], now) < n as real
    ensures false in RefDecisions(cfg, m, Volley(key, now, n))
    decreases n
  {
    var trace := Volley(key, now, n);
    var (m1, ok) := RefStep(cfg, m, trace[0]);
    assert trace[1..] == Volley(key, now, n - 1);
    if ok {
      assert Level(cfg, m1[key], now) == Level(cfg, m[key], now) - 1.0;
      RefVolleyRefused(cfg, m1, key, now, n - 1);
    }
  }

  /** The telltale trace: drain "a", let "b" trigger the cleanup one tick past
      the gap, drain "a" again. */
  function Telltale(cfg: Config): (trace: seq<Request>) {
    Volley("a", 0, cfg.burst) + [Request("b", cfg.gap + 1)] + Volley("a", cfg.gap + 1, cfg.burst)
  }

  lemma TelltaleForward(cfg: Config)
    ensures Forward(Telltale(cfg), 0)
  {
  }

  lemma ServeFirst(cfg: Config, s: State, key: string, now: int)
    requires cfg.burst >= 1 && key !in s.visitors && now - s.lastClean <= cfg.gap
    ensures Step(cfg, s, Request(key, now)) == (WithTokens(s, key, now, cfg.burst as real - 1.0), true)
  {
    var t := cfg.burst as real;
    assert Level(cfg, Full(cfg, now), now) == t;
    assert s.visitors[key := Seen(Full(cfg, now), now)][key := Seen(Bucket(t - 1.0, now), now)]
        == s.visitors[key := Seen(Bucket(t - 1.0, now), now)];
  }

  /** The first request of a key, with a full bucket, in both limiters. */
  lemma FirstVolley(cfg: Config, s: State, key: string, now: int, rest: seq<Request>)
    requires cfg.burst >= 1 && key !in s.visitors && now - s.lastClean <= cfg.gap
    ensures Decisions(cfg, s, Volley(key, now, cfg.burst) + rest)
         == AllTrue(cfg.burst) + Decisions(cfg, WithTokens(s, key, now, 0.0), rest)
  {
    var n := cfg.burst;
    hide Step, WithTokens;
    var trace := Volley(key, now, n) + rest;
    assert trace[0] == Request(key, now) && trace[1..] == Volley(key, now, n - 1) + rest;
    ServeFirst(cfg, s, key, now);
    VolleyPasses(cfg, s, key, now, n as real - 1.0, n - 1, rest);
    assert n as real - 1.0 - (n - 1) as real == 0.0;
    AllTrueCons(n, Decisions(cfg, WithTokens(s, key, now, 0.0), rest));
  }

  lemma RefFirstVolley(cfg: Config, m: Ledger, key: string, now: int, rest: seq<Request>)
    requires cfg.burst >= 1 && key !in m
    ensures RefDecisions(cfg, m, Volley(key, now, cfg.burst) + rest)
         == AllTrue(cfg.burst) + RefDecisions(cfg, m[key := Bucket(0.0, now)], rest)
  {
    var n := cfg.burst;
    var trace := Volley(key, now, n) + rest;
    assert trace[0] == Request(key, now) && trace[1..] == Volley(key, now, n - 1) + rest;
    assert Level(cfg, Full(cfg, now), now) == n as real;
    assert RefStep(cfg, m, trace[0]) == (m[key := Bucket(n as real - 1.0, now)], true);
    RefVolleyPasses(cfg, m, key, now, n as real - 1.0, n - 1, rest);
    assert n as real - 1.0 - (n - 1) as real == 0.0;
    AllTrueCons(n, RefDecisions(cfg, m[key := Bucket(0.0, now)], rest));
  }

  /** The limiter allows all of it: "a" comes back to a full bucket. */
  lemma TelltaleAllAllowed(cfg: Config)
    requires cfg.burst >= 1
    ensures false !in Decisions(cfg, State(map[], 0), Telltale(cfg))
  {
    hide Level;
    var n, late := cfg.burst, cfg.gap + 1;
    var s0 := State(map[], 0);
    var b := Request("b", late);
    var tail := Volley("a", late, n);
    assert Telltale(cfg) == Volley("a", 0, n) + ([b] + tail);
    FirstVolley(cfg, s0, "a", 0, [b] + tail);
    var s1 := WithTokens(s0, "a", 0, 0.0);
    var (s2, ok) := Step(cfg, s1, b);
    assert ok by { FullAllows(cfg, late); }
    assert "a" !in s2.visitors && s2.lastClean == late;
    assert ([b] + tail)[1..] == tail;
    FirstVolley(cfg, s2, "a", late, []);
    assert tail + [] == tail;
    assert Decisions(cfg, s2, tail) == AllTrue(n) + [];
  }

  lemma FullAllows(cfg: Config, now: int)
    requires cfg.burst >= 1
    ensures Spend(cfg, Full(cfg, now), now).1
  {
    assert Level(cfg, Full(cfg, now), now) == cfg.burst as real;
  }

  /** The limiter that never evicts refuses some of it. */
  lemma TelltaleRefused(cfg: Config)
    requires Sensible(cfg) && !RefillsWithinGap(cfg)
    ensures cfg.burst >= 1 && false in RefDecisions(cfg, map[], Telltale(cfg))
  {
    var n, late := cfg.burst, cfg.gap + 1;
    RefillIs(cfg, late);
    RefillGrows(cfg, 0, late);
    var b := Request("b", late);
    var tail := Volley("a", late, n);
    assert Telltale(cfg) == Volley("a", 0, n) + ([b] + tail);
    var m0: Ledger := map[];
    RefFirstVolley(cfg, m0, "a", 0, [b] + tail);
    var m1 := m0["a" := Bucket(0.0, 0)];
    var m2 := RefStep(cfg, m1, b).0;
    assert ([b] + tail)[1..] == tail;
    RefVolleyRefused(cfg, m2, "a", late, n);
  }

  lemma StartLinked(cfg: Config, start: int)
    ensures Linked(cfg, State(map[], start), map[], start)
  {
  }

  /** Eviction is unobservable exactly when a bucket left idle for longer than
      the cleanup gap is sure to be full again. */
  lemma EvictionUnobservableIff(cfg: Config)
    requires Sensible(cfg)
    ensures Transparent(cfg) <==> RefillsWithinGap(cfg)
  {
    hide Decisions, RefDecisions, Forward;
    if RefillsWithinGap(cfg) {
      forall start: int, trace: seq<Request> {:trigger Forward(trace, start)} | Forward(trace, start)
        ensures Decisions(cfg, State(map[], start), trace) == RefDecisions(cfg, map[], trace)
      {
        StartLinked(cfg, start);
        LinkedDecideAlike(cfg, State(map[], start), map[], start, trace);
      }
    } else {
      TelltaleForward(cfg);
      TelltaleRefused(cfg);
      TelltaleAllAllowed(cfg);
    }
  }

  /** One token every six seconds, burst 5, cleanup every ten minutes, in
      nanoseconds: the defaults refill 100 tokens in a gap. */
  const DEFAULT_AUTH: Config := Config(1.0 / 6000000000.0, 5, 600000000000)

  lemma DefaultsAreTransparent()
    ensures Transparent(DEFAULT_AUTH)
  {
    EvictionUnobservableIff(DEFAULT_AUTH);
  }

  // ----- what is let through -----

  /** The requests of a key that were let through from request i to before j. */
  function Spent(trace: seq<Request>, ds: seq<bool>, key: string, i: nat, j: nat): (n: nat)
    requires i <= j <= |trace| == |ds|
    decreases j
  {
    if i == j then 0
    else Spent(trace, ds, key, i, j - 1) + if trace[j - 1].key == key && ds[j - 1] then 1 else 0
  }

  /** What the window from request i to request j has left at request j. */
  function Allowance(cfg: Config, trace: seq<Request>, ds: seq<bool>, key: string, i: nat, j: nat): (l: real)
    requires i <= j < |trace| == |ds|
  {
    cfg.burst as real + cfg.rate * (trace[j].now - trace[i].now) as real - Spent(trace, ds, key, i, j) as real
  }

  function LevelOf(cfg: Config, m: Ledger, key: string, now: int): (l: real) {
    if key in m then Level(cfg, m[key], now) else cfg.burst as real
  }

  ghost predicate SoundLedger(cfg: Config, m: Ledger, clock: int) {
    forall k :: k in m ==> Sound(cfg, m[k], clock)
  }

  function Capped(cfg: Config, l: real): (r: real) {
    if l > cfg.burst as real then cfg.burst as real else l
  }

  lemma LevelLater(cfg: Config, b: Bucket, now: int, later: int)
    requires Sensible(cfg) && b.last <= now <= later
    ensures Level(cfg, b, later) == Capped(cfg, Level(cfg, b, now) + Refill(cfg, later - now))
  {
    RefillGrows(cfg, now - b.last, later - b.last);
    RefillGrows(cfg, 0, later - now);
    assert later - b.last - (now - b.last) == later - now;
  }

  /** One request costs a token if it is let through, and tokens trickle in. */
  lemma StepLevel(cfg: Config, m: Ledger, q: Request, key: string, later: int)
    requires Sensible(cfg) && SoundLedger(cfg, m, q.now) && q.now <= later
    ensures var (m1, ok) := RefStep(cfg, m, q);
            && SoundLedger(cfg, m1, q.now)
            && LevelOf(cfg, m1, key, later)
               == Capped(cfg, LevelOf(cfg, m, key, q.now) - (if q.key == key && ok then 1.0 else 0.0)
                              + Refill(cfg, later - q.now))
  {
    hide Level;
    var (m1, ok) := RefStep(cfg, m, q);
    var b := BucketOf(cfg, m, q);
    RefillGrows(cfg, 0, later - q.now);
    FullLevel(cfg, q.now);
    LevelGrows(cfg, b, q.now, q.now);
    LevelLater(cfg, b, q.now, later);
    LevelHere(cfg, m1[q.key], q.now);
    LevelLater(cfg, m1[q.key], q.now, later);
    if key != q.key && key in m {
      LevelLater(cfg, m[key], q.now, later);
    }
  }

  lemma FullLevel(cfg: Config, now: int)
    requires Sensible(cfg)
    ensures Level(cfg, Full(cfg, now), now) == cfg.burst as real
  {
  }

  lemma LevelHere(cfg: Config, b: Bucket, now: int)
    requires 0.0 <= b.tokens <= cfg.burst as real
    ensures b.last == now ==> Level(cfg, b, now) == b.tokens
  {
  }

  /** The ledger when request j arrives. */
  function LedgerAt(cfg: Config, trace: seq<Request>, j: nat): (m: Ledger)
    requires j <= |trace|
  {
    if j == 0 then map[] else RefStep(cfg, LedgerAt(cfg, trace, j - 1), trace[j - 1]).0
  }

  lemma {:induction false} DecidedAt(cfg: Config, trace: seq<Request>, j: nat, k: nat)
    requires k <= j < |trace|
    ensures RefDecisions(cfg, LedgerAt(cfg, trace, k), trace[k..])[j - k]
         == RefStep(cfg, LedgerAt(cfg, trace, j), trace[j]).1
    decreases j - k
  {
    hide RefStep;
    assert trace[k..][0] == trace[k] && trace[k..][1..] == trace[k + 1..];
    if k < j {
      DecidedAt(cfg, trace, j, k + 1);
    }
  }

  /** The level when request j arrives is the least that any window ending there
      has left. */
  ghost predicate Tight(cfg: Config, trace: seq<Request>, ds: seq<bool>, key: string, j: nat)
    requires j < |trace| == |ds|
  {
    var l := LevelOf(cfg, LedgerAt(cfg, trace, j), key, trace[j].now);
    && (forall i :: 0 <= i <= j ==> l <= Allowance(cfg, trace, ds, key, i, j))
    && exists i :: 0 <= i <= j && l == Allowance(cfg, trace, ds, key, i, j)
  }

  /** All windows move on alike. */
  lemma AllowanceMoves(cfg: Config, trace: seq<Request>, ds: seq<bool>, key: string, i: nat, j: nat)
    requires i <= j && j + 1 < |trace| == |ds|
    ensures Allowance(cfg, trace, ds, key, i, j + 1)
         == Allowance(cfg, trace, ds, key, i, j) - (if trace[j].key == key && ds[j] then 1.0 else 0.0)
            + Refill(cfg, trace[j + 1].now - trace[j].now)
  {
    var a, b := trace[j].now - trace[i].now, trace[j + 1].now - trace[j].now;
    assert (trace[j + 1].now - trace[i].now) as real == a as real + b as real;
    Distribute(cfg.rate, a as real, b as real);
  }

  lemma Distribute(x: real, a: real, b: real)
    ensures x * (a + b) == x * a + x * b
  {
  }

  lemma {:induction false} AlwaysTight(cfg: Config, start: int, trace: seq<Request>, key: string, j: nat)
    requires Sensible(cfg) && Forward(trace, start) && j < |trace|
    ensures SoundLedger(cfg, LedgerAt(cfg, trace, j), trace[j].now)
    ensures Tight(cfg, trace, RefDecisions(cfg, map[], trace), key, j)
    decreases j
  {
    hide RefStep, LevelOf, RefDecisions, Level, Sound;
    var ds := RefDecisions(cfg, map[], trace);
    if j == 0 {
      assert LevelOf(cfg, map[], key, trace[0].now) == cfg.burst as real by { NoBucket(cfg, key, trace[0].now); }
      assert Allowance(cfg, trace, ds, key, 0, 0) == cfg.burst as real by { AllowanceHere(cfg, trace, ds, key, 0); }
    } else {
      AlwaysTight(cfg, start, trace, key, j - 1);
      DecidedAt(cfg, trace, j - 1, 0);
      assert trace[0..] == trace;
      var m := LedgerAt(cfg, trace, j - 1);
      StepLevel(cfg, m, trace[j - 1], key, trace[j].now);
      SoundLater(cfg, LedgerAt(cfg, trace, j), trace[j - 1].now, trace[j].now);
      TightMoves(cfg, trace, ds, key, j - 1);
    }
  }

  lemma NoBucket(cfg: Config, key: string, now: int)
    ensures LevelOf(cfg, map[], key, now) == cfg.burst as real
  {
  }

  lemma AllowanceHere(cfg: Config, trace: seq<Request>, ds: seq<bool>, key: string, j: nat)
    requires j < |trace| == |ds|
    ensures Allowance(cfg, trace, ds, key, j, j) == cfg.burst as real
  {
    assert (trace[j].now - trace[j].now) as real == 0.0;
  }

  lemma SoundLater(cfg: Config, m: Ledger, clock: int, now: int)
    requires SoundLedger(cfg, m, clock) && clock <= now
    ensures SoundLedger(cfg, m, now)
  {
  }

  lemma TightMoves(cfg: Config, trace: seq<Request>, ds: seq<bool>, key: string, j: nat)
    requires j + 1 < |trace| == |ds| && Tight(cfg, trace, ds, key, j)
    requires var l := LevelOf(cfg, LedgerAt(cfg, trace, j), key, trace[j].now);
             LevelOf(cfg, LedgerAt(cfg, trace, j + 1), key, trace[j + 1].now)
             == Capped(cfg, l - (if trace[j].key == key && ds[j] then 1.0 else 0.0)
                            + Refill(cfg, trace[j + 1].now - trace[j].now))
    ensures Tight(cfg, trace, ds, key, j + 1)
  {
    hide LevelOf, LedgerAt, Allowance, Refill;
    forall i: nat | i <= j
      ensures Allowance(cfg, trace, ds, key, i, j + 1)
           == Allowance(cfg, trace, ds, key, i, j) - (if trace[j].key == key && ds[j] then 1.0 else 0.0)
              + Refill(cfg, trace[j + 1].now - trace[j].now)
    {
      AllowanceMoves(cfg, trace, ds, key, i, j);
    }
    AllowanceHere(cfg, trace, ds, key, j + 1);
    var l := LevelOf(cfg, LedgerAt(cfg, trace, j), key, trace[j].now);
    var l1 := LevelOf(cfg, LedgerAt(cfg, trace, j + 1), key, trace[j + 1].now);
    var next := j + 1;
    forall i | 0 <= i <= next ensures l1 <= Allowance(cfg, trace, ds, key, i, next) {
      if i <= j {
        assert l <= Allowance(cfg, trace, ds, key, i, j);
      }
    }
    var i :| 0 <= i <= j && l == Allowance(cfg, trace, ds, key, i, j);
    assert l1 == Allowance(cfg, trace, ds, key, i, j + 1) || l1 == Allowance(cfg, trace, ds, key, j + 1, j + 1);
  }

  /** The limiter as a counter: request j is let through exactly when, counting
      it, no window of requests ending with it lets through more than the burst
      and `rate` for each tick of the window. */
  lemma LetThroughIff(cfg: Config, start: int, trace: seq<Request>, j: nat)
    requires Sensible(cfg) && RefillsWithinGap(cfg) && Forward(trace, start) && j < |trace|
    ensures var ds := Decisions(cfg, State(map[], start), trace);
            ds[j] <==> forall i :: 0 <= i <= j ==> Fits(cfg, trace, ds, trace[j].key, i, j)
  {
    hide Decisions, RefDecisions, LevelOf, LedgerAt, Allowance, Fits, RefillsWithinGap;
    StartLinked(cfg, start);
    LinkedDecideAlike(cfg, State(map[], start), map[], start, trace);
    var ds := RefDecisions(cfg, map[], trace);
    var key, now := trace[j].key, trace[j].now;
    AlwaysTight(cfg, start, trace, key, j);
    LetThroughAt(cfg, trace, j);
    forall i | 0 <= i <= j ensures Fits(cfg, trace, ds, key, i, j) <==> Allowance(cfg, trace, ds, key, i, j) >= 1.0 {
      FitsAllowance(cfg, trace, ds, key, i, j);
    }
  }

  /** One more request fits the window from request i to request j. */
  ghost predicate Fits(cfg: Config, trace: seq<Request>, ds: seq<bool>, key: string, i: nat, j: nat)
    requires i <= j < |trace| == |ds|
  {
    (Spent(trace, ds, key, i, j) + 1) as real <= cfg.burst as real + cfg.rate * (trace[j].now - trace[i].now) as real
  }

  lemma FitsAllowance(cfg: Config, trace: seq<Request>, ds: seq<bool>, key: string, i: nat, j: nat)
    requires i <= j < |trace| == |ds|
    ensures Fits(cfg, trace, ds, key, i, j) <==> Allowance(cfg, trace, ds, key, i, j) >= 1.0
  {
    hide Spent;
  }

  lemma LetThroughAt(cfg: Config, trace: seq<Request>, j: nat)
    requires Sensible(cfg) && j < |trace|
    ensures RefDecisions(cfg, map[], trace)[j]
       <==> LevelOf(cfg, LedgerAt(cfg, trace, j), trace[j].key, trace[j].now) >= 1.0
  {
    hide RefDecisions, LedgerAt, Level;
    DecidedAt(cfg, trace, j, 0);
    assert trace[0..] == trace && LedgerAt(cfg, trace, 0) == map[] by { FirstLedger(cfg, trace); }
    FullLevel(cfg, trace[j].now);
  }

  lemma FirstLedger(cfg: Config, trace: seq<Request>)
    ensures LedgerAt(cfg, trace, 0) == map[]
  {
  }

  /** So even across evictions, the requests i..j of any trace let through at
      most the burst and `rate` for each tick from the first to the last. */
  lemma {:induction false} WindowBound(cfg: Config, start: int, trace: seq<Request>, i: nat, j: nat, key: string)
    requires Sensible(cfg) && RefillsWithinGap(cfg) && Forward(trace, start) && i < j <= |trace|
    ensures var ds := Decisions(cfg, State(map[], start), trace);
            Spent(trace, ds, key, i, j) as real
              <= cfg.burst as real + cfg.rate * (trace[j - 1].now - trace[i].now) as real
    decreases j
  {
    hide Decisions, RefillsWithinGap, Refill, Spent;
    var ds := Decisions(cfg, State(map[], start), trace);
    RefillIs(cfg, trace[j - 1].now - trace[i].now);
    RefillGrows(cfg, 0, trace[j - 1].now - trace[i].now);
    SpentLast(trace, ds, key, i, j);
    if trace[j - 1].key == key && ds[j - 1] {
      LetThroughIff(cfg, start, trace, j - 1);
      assert Fits(cfg, trace, ds, key, i, j - 1);
    } else if i < j - 1 {
      WindowBound(cfg, start, trace, i, j - 1, key);
      RefillIs(cfg, trace[j - 2].now - trace[i].now);
      RefillGrows(cfg, trace[j - 2].now - trace[i].now, trace[j - 1].now - trace[i].now);
    }
  }

  lemma SpentLast(trace: seq<Request>, ds: seq<bool>, key: string, i: nat, j: nat)
    requires i < j <= |trace| == |ds|
    ensures Spent(trace, ds, key, i, j)
         == Spent(trace, ds, key, i, j - 1) + if trace[j - 1].key == key && ds[j - 1] then 1 else 0
    ensures Spent(trace, ds, key, i, i) == 0
  {
  }

  /** A key whose bucket is empty is let through again exactly when `rate` has
      brought a whole token. */
  lemma EmptyLetsThroughIff(cfg: Config, s: State, key: string, now: int)
    requires Sensible(cfg) && key in s.visitors && s.visitors[key].bucket.tokens == 0.0
    requires s.visitors[key].bucket.last <= now
    ensures Step(cfg, s, Request(key, now)).1
       <==> cfg.burst >= 1 && cfg.rate * (now - s.visitors[key].bucket.last) as real >= 1.0
  {
    hide CleanOn;
    RefillIs(cfg, now - s.visitors[key].bucket.last);
  }

  // ----- how long a visitor is kept -----

  /** A visitor is dropped exactly when a request of another key comes more than
      a gap after both the last cleanup and the visitor's last request. */
  lemma KeptIff(cfg: Config, s: State, q: Request, k: string)
    ensures var s1 := Step(cfg, s, q).0;
            k in s1.visitors
            <==> k == q.key || (k in s.visitors && (q.now <= s.lastClean + cfg.gap
                                                   || q.now <= s.visitors[k].lastSeen + cfg.gap))
  {
    hide Spend;
  }

  ghost predicate Recent(cfg: Config, s: State, now: int) {
    && s.lastClean <= now <= s.lastClean + cfg.gap
    && forall k :: k in s.visitors ==> s.lastClean - cfg.gap <= s.visitors[k].lastSeen <= now
  }

  function StateAfter(cfg: Config, s: State, trace: seq<Request>): (r: State)
    decreases |trace|
  {
    if trace == [] then s else StateAfter(cfg, Step(cfg, s, trace[0]).0, trace[1..])
  }

  lemma StepStaysRecent(cfg: Config, s: State, q: Request, clock: int)
    requires Recent(cfg, s, clock) && clock <= q.now
    ensures Recent(cfg, Step(cfg, s, q).0, q.now)
  {
    hide Spend;
  }

  /** The table does not grow old: after every request, all visitors in it were
      seen within the last two gaps. */
  lemma {:induction false} VisitorsAreRecent(cfg: Config, s: State, clock: int, trace: seq<Request>)
    requires Recent(cfg, s, clock) && Forward(trace, clock)
    ensures var s1, now := StateAfter(cfg, s, trace), if trace == [] then clock else trace[|trace| - 1].now;
            Recent(cfg, s1, now) && forall k :: k in s1.visitors ==> now - s1.visitors[k].lastSeen <= 2 * cfg.gap
    decreases |trace|
  {
    hide Step;
    if trace != [] {
      StepStaysRecent(cfg, s, trace[0], clock);
      VisitorsAreRecent(cfg, Step(cfg, s, trace[0]).0, trace[0].now, trace[1..]);
    }
  }
}
