/**
 The per-key token-bucket limiter with idle eviction (internal/ratelimit/ratelimit.go).
 Times are real seconds; the bucket is the real-valued specification of a
 golang.org/x/time/rate limiter with rate perMin/60 and burst perMin.
 */
module RateLimit {

  type Time = real

  const IDLE: real := 30.0 * 60.0

  datatype Config = Config(enabled: bool, perMinute: map<string, int>, byDefault: int)

  /** One entry: the limit it was created with, its tokens at `last`, and the last call. */
  datatype Entry = Entry(perMin: int, tokens: real, last: Time, lastSeen: Time)

  type Buckets = map<string, Entry>

  function LimitFor(cfg: Config, category: string): int {
    if category in cfg.perMinute && cfg.perMinute[category] > 0 then cfg.perMinute[category] else cfg.byDefault
  }

  function BucketKey(category: string, key: string): string {
    category + "|" + key
  }

  function Min(x: real, y: real): real {
    if x <= y then x else y
  }

  /** Tokens gained in dt seconds at perMin a minute, written as a sum of perMin shares; GainIsRate gives the product. */
  function Gain(perMin: int, dt: real): real
    decreases perMin
  {
    if perMin <= 0 then 0.0 else dt / 60.0 + Gain(perMin - 1, dt)
  }

  /** Tokens available at `now`. */
  function Level(e: Entry, now: Time): real {
    Min(e.perMin as real, e.tokens + Gain(e.perMin, if now < e.last then 0.0 else now - e.last))
  }

  /** Take a token if a whole one is there; a refused call leaves tokens and clock alone. */
  function Take(e: Entry, now: Time): (bool, Entry) {
    if Level(e, now) >= 1.0 then (true, e.(tokens := Level(e, now) - 1.0, last := now)) else (false, e)
  }

  function Fresh(perMin: int, now: Time): Entry {
    Entry(perMin, perMin as real, now, now)
  }

  predicate Limited(cfg: Config, category: string) {
    cfg.enabled && LimitFor(cfg, category) > 0
  }

  /** The entry a call finds or creates. */
  function Seen(m: Buckets, k: string, perMin: int, now: Time): Entry {
    if k in m then m[k].(lastSeen := now) else Fresh(perMin, now)
  }

  function Step(cfg: Config, m: Buckets, category: string, key: string, now: Time): (bool, Buckets) {
    if !Limited(cfg, category) then (true, m)
    else
      var k := BucketKey(category, key);
      var r := Take(Seen(m, k, LimitFor(cfg, category), now), now);
      (r.0, m[k := r.1])
  }

  function Kept(m: Buckets, now: Time): Buckets {
    map k | k in m && !(m[k].lastSeen < now - IDLE) :: m[k]
  }

  // ---- as the source writes it ----

  class Limiter {
    const cfg: Config
    var buckets: Buckets

    constructor (cfg: Config)
      ensures this.cfg == cfg && buckets == map[]
    {
      this.cfg := cfg;
      buckets := map[];
    }

    method Allow(category: string, key: string, now: Time) returns (ok: bool)
      modifies this
      ensures (ok, buckets) == Step(cfg, old(buckets), category, key, now)
    {
      if !cfg.enabled { return true; }
      var perMin := LimitFor(cfg, category);
      if perMin <= 0 { return true; }
      var k := BucketKey(category, key);
      if k !in buckets {
        buckets := buckets[k := Fresh(perMin, now)];
      }
      buckets := buckets[k := buckets[k].(lastSeen := now)];
      assert buckets == old(buckets)[k := Seen(old(buckets), k, perMin, now)];
      var r := Take(buckets[k], now);
      buckets := buckets[k := r.1];
      assert buckets == old(buckets)[k := r.1];
      ok := r.0;
    }

    /** One tick of the janitor. */
    method Sweep(now: Time)
      modifies this
      ensures buckets == Kept(old(buckets), now)
    {
      var cutoff := now - IDLE;
      var todo := buckets.Keys;
      while todo != {}
        invariant todo <= buckets.Keys <= old(buckets).Keys
        invariant forall k :: k in buckets ==> buckets[k] == old(buckets)[k]
        invariant forall k :: k in old(buckets) && k !in todo ==> (k in buckets <==> !(old(buckets)[k].lastSeen < cutoff))
        decreases |todo|
      {
        var k :| k in todo;
        if buckets[k].lastSeen < cutoff {
          buckets := buckets - {k};
        }
        todo := todo - {k};
      }
    }
  }

  // ---- runs ----

  datatype Event = Call(category: string, key: string, at: Time) | Tick(at: Time)

  function Next(cfg: Config, m: Buckets, e: Event, evicts: bool): Buckets {
    match e
    case Call(category, key, at) => Step(cfg, m, category, key, at).1
    case Tick(at) => if evicts then Kept(m, at) else m
  }

  /** The decisions on the calls of a run, with or without a janitor. */
  function Decisions(cfg: Config, m: Buckets, run: seq<Event>, evicts: bool): seq<bool>
    decreases |run|
  {
    if run == [] then []
    else
      (if run[0].Call? then [Step(cfg, m, run[0].category, run[0].key, run[0].at).0] else []) +
      Decisions(cfg, Next(cfg, m, run[0], evicts), run[1..], evicts)
  }

  predicate Ordered(run: seq<Event>, from: Time)
    decreases |run|
  {
    run == [] || (from <= run[0].at && Ordered(run[1..], run[0].at))
  }

  /** Calls sharing a bucket have one limit. */
  ghost predicate OneLimitPerBucket(cfg: Config, run: seq<Event>) {
    forall i, j :: 0 <= i < |run| && 0 <= j < |run| && run[i].Call? && run[j].Call? &&
      Limited(cfg, run[i].category) && Limited(cfg, run[j].category) &&
      BucketKey(run[i].category, run[i].key) == BucketKey(run[j].category, run[j].key)
      ==> LimitFor(cfg, run[i].category) == LimitFor(cfg, run[j].category)
  }

  predicate BarFree(s: string) {
    forall i :: 0 <= i < |s| ==> s[i] != '|'
  }

  lemma BarIsPastCategory(c: string, k: string, i: nat)
    requires BarFree(c) && i < |BucketKey(c, k)| && BucketKey(c, k)[i] == '|'
    ensures i >= |c|
  {
  }

  /** Categories without a bar never share a bucket, nor do different keys of one category. */
  lemma BucketKeysCollideIff(c1: string, k1: string, c2: string, k2: string)
    requires BarFree(c1) && BarFree(c2)
    ensures BucketKey(c1, k1) == BucketKey(c2, k2) <==> (c1 == c2 && k1 == k2)
  {
    var a, b := BucketKey(c1, k1), BucketKey(c2, k2);
    if a == b {
      assert a[|c1|] == '|' && b[|c2|] == '|';
      BarIsPastCategory(c2, k2, |c1|);
      BarIsPastCategory(c1, k1, |c2|);
      assert a[..|c1|] == c1 && b[..|c2|] == c2 && a[|c1| + 1..] == k1 && b[|c2| + 1..] == k2;
    }
  }

  lemma BarFreeCategoriesHaveOneLimit(cfg: Config, run: seq<Event>)
    requires forall i :: 0 <= i < |run| && run[i].Call? ==> BarFree(run[i].category)
    ensures OneLimitPerBucket(cfg, run)
  {
    forall i, j | 0 <= i < |run| && 0 <= j < |run| && run[i].Call? && run[j].Call? &&
      BucketKey(run[i].category, run[i].key) == BucketKey(run[j].category, run[j].key)
      ensures LimitFor(cfg, run[i].category) == LimitFor(cfg, run[j].category)
    {
      BucketKeysCollideIff(run[i].category, run[i].key, run[j].category, run[j].key);
    }
  }

  // ---- invariants of a bucket map ----

  predicate EntryOk(e: Entry, now: Time) {
    e.perMin >= 1 && 0.0 <= e.tokens <= e.perMin as real && e.last <= e.lastSeen <= now
  }

  ghost predicate BucketsOk(m: Buckets, now: Time) {
    forall k :: k in m ==> EntryOk(m[k], now)
  }

  function Times(a: real, b: real): real {
    a * b
  }

  lemma TimesAdds(a: real, b: real, c: real)
    ensures Times(a, b + c) == Times(a, b) + Times(a, c)
  {
  }

  lemma {:induction false} GainBy(perMin: nat, n: real, dt: real)
    requires n == perMin as real
    ensures Gain(perMin, dt) == Times(dt, n / 60.0)
    decreases perMin
  {
    if perMin > 0 {
      GainBy(perMin - 1, n - 1.0, dt);
      TimesAdds(dt, (n - 1.0) / 60.0, 1.0 / 60.0);
    }
  }

  /** The gain is the time elapsed at perMin/60 tokens per second. */
  lemma {:induction false} GainIsRate(perMin: nat, dt: real)
    ensures Gain(perMin, dt) == dt * (perMin as real / 60.0)
  {
    GainBy(perMin, perMin as real, dt);
  }

  lemma {:induction false} GainAdds(perMin: int, a: real, b: real)
    ensures Gain(perMin, a + b) == Gain(perMin, a) + Gain(perMin, b)
    decreases perMin
  {
    if perMin > 0 { GainAdds(perMin - 1, a, b); }
  }

  lemma {:induction false} GainGrows(perMin: int, a: real, b: real)
    requires 0.0 <= a <= b
    ensures 0.0 <= Gain(perMin, a) <= Gain(perMin, b)
    decreases perMin
  {
    if perMin > 0 { GainGrows(perMin - 1, a, b); }
  }

  lemma {:induction false} GainOfAMinute(perMin: nat)
    ensures Gain(perMin, 60.0) == perMin as real
  {
    if perMin > 0 { GainOfAMinute(perMin - 1); }
  }

  lemma LevelOk(e: Entry, now: Time)
    requires EntryOk(e, now)
    ensures 0.0 <= Level(e, now) <= e.perMin as real
  {
    GainGrows(e.perMin, 0.0, now - e.last);
  }

  lemma StepOk(cfg: Config, m: Buckets, e: Event, from: Time, evicts: bool)
    requires BucketsOk(m, from) && from <= e.at
    ensures BucketsOk(Next(cfg, m, e, evicts), e.at)
  {
    if e.Call? && Limited(cfg, e.category) {
      LevelOk(Seen(m, BucketKey(e.category, e.key), LimitFor(cfg, e.category), e.at), e.at);
    }
  }

  // ---- eviction is invisible ----

  /** An idle minute fills any bucket. */
  lemma IdleIsFull(e: Entry, now: Time)
    requires EntryOk(e, now) && e.lastSeen <= now - 60.0
    ensures Level(e, now) == e.perMin as real
  {
    GainOfAMinute(e.perMin);
    GainGrows(e.perMin, 60.0, now - e.last);
  }

  /** The evicting limiter holds some of the other's buckets; those it dropped have been idle long enough. */
  ghost predicate Simulates(small: Buckets, big: Buckets, now: Time) {
    && (forall k :: k in small ==> k in big && small[k] == big[k])
    && (forall k :: k in big && k !in small ==> big[k].lastSeen <= now - IDLE)
  }

  /** The limit of every bucket is the limit of the calls still to come on it. */
  ghost predicate LimitsFit(cfg: Config, m: Buckets, run: seq<Event>) {
    forall i :: 0 <= i < |run| && run[i].Call? && Limited(cfg, run[i].category) && BucketKey(run[i].category, run[i].key) in m ==>
      m[BucketKey(run[i].category, run[i].key)].perMin == LimitFor(cfg, run[i].category)
  }

  lemma CallSimulates(cfg: Config, small: Buckets, big: Buckets, e: Event, from: Time)
    requires e.Call? && from <= e.at && Simulates(small, big, from) && BucketsOk(big, from)
    requires Limited(cfg, e.category) && BucketKey(e.category, e.key) in big ==>
      big[BucketKey(e.category, e.key)].perMin == LimitFor(cfg, e.category)
    ensures Step(cfg, small, e.category, e.key, e.at).0 == Step(cfg, big, e.category, e.key, e.at).0
    ensures Simulates(Next(cfg, small, e, true), Next(cfg, big, e, false), e.at)
  {
    var k := BucketKey(e.category, e.key);
    if Limited(cfg, e.category) && k in big && k !in small {
      IdleIsFull(big[k], e.at);
      LevelAtOnce(Fresh(LimitFor(cfg, e.category), e.at));
      assert Level(big[k].(lastSeen := e.at), e.at) == Level(big[k], e.at);
    }
  }

  lemma LimitsFitNext(cfg: Config, m: Buckets, run: seq<Event>, evicts: bool)
    requires run != [] && LimitsFit(cfg, m, run) && OneLimitPerBucket(cfg, run)
    ensures LimitsFit(cfg, Next(cfg, m, run[0], evicts), run[1..]) && OneLimitPerBucket(cfg, run[1..])
  {
    assert forall i :: 0 <= i < |run[1..]| ==> run[1..][i] == run[i + 1];
  }

  lemma {:induction false} EvictionSimulates(cfg: Config, small: Buckets, big: Buckets, run: seq<Event>, from: Time)
    requires Ordered(run, from) && OneLimitPerBucket(cfg, run) && LimitsFit(cfg, big, run)
    requires Simulates(small, big, from) && BucketsOk(big, from)
    ensures Decisions(cfg, small, run, true) == Decisions(cfg, big, run, false)
    decreases |run|
  {
    if run != [] {
      var e := run[0];
      if e.Call? { CallSimulates(cfg, small, big, e, from); }
      StepOk(cfg, big, e, from, false);
      LimitsFitNext(cfg, big, run, false);
      EvictionSimulates(cfg, Next(cfg, small, e, true), Next(cfg, big, e, false), run[1..], e.at);
    }
  }

  /** The limiter with the janitor decides every call as one that never evicts, wherever the ticks fall. */
  lemma EvictionIsInvisible(cfg: Config, run: seq<Event>, from: Time)
    requires Ordered(run, from) && OneLimitPerBucket(cfg, run)
    ensures Decisions(cfg, map[], run, true) == Decisions(cfg, map[], run, false)
  {
    EvictionSimulates(cfg, map[], map[], run, from);
  }

  // ---- the window bound ----

  /** How many calls on the bucket `k` a run allows. */
  function AllowedOn(cfg: Config, m: Buckets, run: seq<Event>, k: string): nat
    decreases |run|
  {
    if run == [] then 0
    else
      (if TakesOn(cfg, m, run[0], k) then 1 else 0) +
      AllowedOn(cfg, Next(cfg, m, run[0], true), run[1..], k)
  }

  /** What the bucket could give at once at `now`; a missing bucket is a full one. */
  function Potential(m: Buckets, k: string, perMin: int, now: Time): real {
    if k in m then Level(m[k], now) else perMin as real
  }

  predicate TakesOn(cfg: Config, m: Buckets, e: Event, k: string) {
    e.Call? && Limited(cfg, e.category) && BucketKey(e.category, e.key) == k && Step(cfg, m, e.category, e.key, e.at).0
  }

  lemma LevelAtOnce(e: Entry)
    ensures Level(e, e.last) == Min(e.perMin as real, e.tokens)
  {
    GainAdds(e.perMin, 0.0, 0.0);
  }

  lemma PotentialAtLater(m: Buckets, k: string, perMin: int, t: Time, later: Time)
    requires BucketsOk(m, t) && t <= later && perMin >= 1 && (k in m ==> m[k].perMin == perMin)
    ensures Potential(m, k, perMin, later) == Min(perMin as real, Potential(m, k, perMin, t) + Gain(perMin, later - t))
  {
    GainGrows(perMin, 0.0, later - t);
    if k in m {
      GainAdds(perMin, t - m[k].last, later - t);
      assert t - m[k].last + (later - t) == later - m[k].last;
    }
  }

  /** At its own instant an event costs exactly what it takes. */
  lemma PotentialOfNext(cfg: Config, m: Buckets, e: Event, k: string, perMin: int)
    requires BucketsOk(m, e.at) && perMin >= 1 && (k in m ==> m[k].perMin == perMin)
    requires e.Call? && Limited(cfg, e.category) && BucketKey(e.category, e.key) == k ==> LimitFor(cfg, e.category) == perMin
    ensures Potential(Next(cfg, m, e, true), k, perMin, e.at) == Potential(m, k, perMin, e.at) - if TakesOn(cfg, m, e, k) then 1.0 else 0.0
  {
    if e.Tick? {
      if k in m && m[k].lastSeen < e.at - IDLE { IdleIsFull(m[k], e.at); }
    } else if Limited(cfg, e.category) && BucketKey(e.category, e.key) == k {
      var x := Seen(m, k, perMin, e.at);
      LevelAtOnce(x);
      LevelOk(x, e.at);
      LevelAtOnce(Take(x, e.at).1);
    }
  }

  lemma LimitsFitOn(cfg: Config, m: Buckets, e: Event, k: string, perMin: int)
    requires k in m ==> m[k].perMin == perMin
    requires e.Call? && Limited(cfg, e.category) && BucketKey(e.category, e.key) == k ==> LimitFor(cfg, e.category) == perMin
    ensures k in Next(cfg, m, e, true) ==> Next(cfg, m, e, true)[k].perMin == perMin
  {
  }

  lemma {:induction false} AllowedIsBounded(cfg: Config, m: Buckets, run: seq<Event>, from: Time, to: Time, k: string, perMin: int)
    requires Ordered(run, from) && from <= to && (forall i :: 0 <= i < |run| ==> run[i].at <= to)
    requires BucketsOk(m, from) && perMin >= 1 && (k in m ==> m[k].perMin == perMin)
    requires LimitIs(cfg, run, k, perMin)
    ensures AllowedOn(cfg, m, run, k) as real <= Potential(m, k, perMin, from) + Gain(perMin, to - from)
    decreases |run|
  {
    if run == [] {
      PotentialNonNegative(m, k, perMin, from);
      GainGrows(perMin, 0.0, to - from);
    } else {
      var e := run[0];
      PotentialAtLater(m, k, perMin, from, e.at);
      StepOk(cfg, m, e, from, true);
      PotentialOfNext(cfg, m, e, k, perMin);
      LimitsFitOn(cfg, m, e, k, perMin);
      assert forall i :: 0 <= i < |run[1..]| ==> run[1..][i] == run[i + 1];
      var m' := Next(cfg, m, e, true);
      AllowedIsBounded(cfg, m', run[1..], e.at, to, k, perMin);
      GainAdds(perMin, e.at - from, to - e.at);
      assert e.at - from + (to - e.at) == to - from;
    }
  }

  lemma PotentialNonNegative(m: Buckets, k: string, perMin: int, now: Time)
    requires BucketsOk(m, now) && perMin >= 1
    ensures Potential(m, k, perMin, now) >= 0.0
  {
    if k in m { LevelOk(m[k], now); }
  }

  function AfterRun(cfg: Config, m: Buckets, run: seq<Event>): Buckets
    decreases |run|
  {
    if run == [] then m else AfterRun(cfg, Next(cfg, m, run[0], true), run[1..])
  }

  /** After any history the buckets are well-formed, and the bucket `k` has its callers' limit. */
  lemma {:induction false} HistoryOk(cfg: Config, m: Buckets, before: seq<Event>, from: Time, start: Time, k: string, perMin: int)
    requires Ordered(before, from) && from <= start && (forall i :: 0 <= i < |before| ==> before[i].at <= start)
    requires BucketsOk(m, from) && LimitIs(cfg, before, k, perMin) && (k in m ==> m[k].perMin == perMin)
    ensures BucketsOk(AfterRun(cfg, m, before), start)
    ensures k in AfterRun(cfg, m, before) ==> AfterRun(cfg, m, before)[k].perMin == perMin
    decreases |before|
  {
    if before != [] {
      StepOk(cfg, m, before[0], from, true);
      if before[0].Call? { LimitsFitOn(cfg, m, before[0], k, perMin); }
      assert forall i :: 0 <= i < |before[1..]| ==> before[1..][i] == before[i + 1];
      HistoryOk(cfg, Next(cfg, m, before[0], true), before[1..], before[0].at, start, k, perMin);
    }
  }

  lemma PotentialAtMost(m: Buckets, k: string, perMin: int, now: Time)
    requires BucketsOk(m, now) && (k in m ==> m[k].perMin == perMin)
    ensures Potential(m, k, perMin, now) <= perMin as real
  {
  }

  ghost predicate LimitIs(cfg: Config, run: seq<Event>, k: string, perMin: int) {
    forall i :: 0 <= i < |run| && run[i].Call? && Limited(cfg, run[i].category) && BucketKey(run[i].category, run[i].key) == k ==>
      LimitFor(cfg, run[i].category) == perMin
  }

  /** A burst of perMin, and perMin a minute for T seconds. */
  function Budget(perMin: int, T: real): real {
    perMin as real + T * (perMin as real / 60.0)
  }

  lemma WindowGain(cfg: Config, m: Buckets, window: seq<Event>, start: Time, T: real, k: string, perMin: int)
    requires BucketsOk(m, start) && perMin >= 1 && (k in m ==> m[k].perMin == perMin) && LimitIs(cfg, window, k, perMin)
    requires Ordered(window, start) && T >= 0.0 && forall i :: 0 <= i < |window| ==> window[i].at <= start + T
    ensures AllowedOn(cfg, m, window, k) as real <= Budget(perMin, T)
  {
    AllowedIsBounded(cfg, m, window, start, start + T, k, perMin);
    PotentialAtMost(m, k, perMin, start);
    assert start + T - start == T;
    GainIsRate(perMin, T);
  }

  /**
   After any history, the calls allowed for one category and key in a window of T seconds
   number at most perMin + T * (perMin / 60), when every call on that bucket has its limit.
   */
  lemma WindowBound(cfg: Config, before: seq<Event>, window: seq<Event>, from: Time, start: Time, T: real, category: string, key: string)
    requires Limited(cfg, category) && LimitIs(cfg, before + window, BucketKey(category, key), LimitFor(cfg, category))
    requires Ordered(before, from) && from <= start && forall i :: 0 <= i < |before| ==> before[i].at <= start
    requires Ordered(window, start) && T >= 0.0 && forall i :: 0 <= i < |window| ==> window[i].at <= start + T
    ensures AllowedOn(cfg, AfterRun(cfg, map[], before), window, BucketKey(category, key)) as real <= Budget(LimitFor(cfg, category), T)
  {
    var k, perMin, all := BucketKey(category, key), LimitFor(cfg, category), before + window;
    forall i | 0 <= i < |before| ensures before[i] == all[i] {}
    forall i | 0 <= i < |window| ensures window[i] == all[|before| + i] {}
    HistoryOk(cfg, map[], before, from, start, k, perMin);
    WindowGain(cfg, AfterRun(cfg, map[], before), window, start, T, k, perMin);
  }

  /** Among categories without a bar nothing more is asked. */
  lemma BarFreeWindowBound(cfg: Config, before: seq<Event>, window: seq<Event>, from: Time, start: Time, T: real, category: string, key: string)
    requires Limited(cfg, category) && BarFree(category)
    requires forall i :: 0 <= i < |before + window| && (before + window)[i].Call? ==> BarFree((before + window)[i].category)
    requires Ordered(before, from) && from <= start && forall i :: 0 <= i < |before| ==> before[i].at <= start
    requires Ordered(window, start) && T >= 0.0 && forall i :: 0 <= i < |window| ==> window[i].at <= start + T
    ensures AllowedOn(cfg, AfterRun(cfg, map[], before), window, BucketKey(category, key)) as real <= Budget(LimitFor(cfg, category), T)
  {
    var all := before + window;
    forall i | 0 <= i < |all| && all[i].Call? && BucketKey(all[i].category, all[i].key) == BucketKey(category, key)
      ensures LimitFor(cfg, all[i].category) == LimitFor(cfg, category)
    {
      BucketKeysCollideIff(all[i].category, all[i].key, category, key);
    }
    WindowBound(cfg, before, window, from, start, T, category, key);
  }

  // ---- exactly which calls are refused ----

  /** A call passes exactly when what is left and what has been gained since make a whole token. */
  lemma TakesIff(e: Entry, now: Time)
    requires EntryOk(e, now)
    ensures Take(e, now).0 <==> e.tokens + (now - e.last) * (e.perMin as real / 60.0) >= 1.0
  {
    GainIsRate(e.perMin, now - e.last);
  }

  /** When a run allows calls on the bucket `k`. */
  function AllowedAt(cfg: Config, m: Buckets, run: seq<Event>, k: string): seq<Time>
    decreases |run|
  {
    if run == [] then []
    else (if TakesOn(cfg, m, run[0], k) then [run[0].at] else []) + AllowedAt(cfg, Next(cfg, m, run[0], true), run[1..], k)
  }

  /** What the calls allowed at `ts` leave of the bucket at t: from each of them on, the budget less the calls. */
  function Room(perMin: int, ts: seq<Time>, t: Time): real {
    if ts == [] then perMin as real
    else Min(perMin as real + Gain(perMin, t - ts[0]) - |ts| as real, Room(perMin, ts[1..], t))
  }

  lemma {:induction false} RoomGrows(perMin: nat, ts: seq<Time>, t: Time, later: Time)
    requires t <= later
    ensures Room(perMin, ts, later) == Min(perMin as real, Room(perMin, ts, t) + Gain(perMin, later - t))
    decreases |ts|
  {
    GainGrows(perMin, 0.0, later - t);
    if ts != [] {
      GainAdds(perMin, t - ts[0], later - t);
      assert t - ts[0] + (later - t) == later - ts[0];
      RoomGrows(perMin, ts[1..], t, later);
    }
  }

  /** One more call takes one token. */
  lemma {:induction false} RoomAfterACall(perMin: nat, ts: seq<Time>, t: Time)
    ensures Room(perMin, ts + [t], t) == Room(perMin, ts, t) - 1.0
    decreases |ts|
  {
    GainAdds(perMin, 0.0, 0.0);
    if ts == [] {
      assert (ts + [t])[1..] == [];
    } else {
      assert (ts + [t])[1..] == ts[1..] + [t];
      RoomAfterACall(perMin, ts[1..], t);
    }
  }

  lemma RoomOfNext(cfg: Config, m: Buckets, e: Event, from: Time, k: string, perMin: int, ts: seq<Time>)
    requires from <= e.at && BucketsOk(m, from) && perMin >= 1 && (k in m ==> m[k].perMin == perMin)
    requires e.Call? && Limited(cfg, e.category) && BucketKey(e.category, e.key) == k ==> LimitFor(cfg, e.category) == perMin
    requires Potential(m, k, perMin, from) == Room(perMin, ts, from)
    ensures Potential(Next(cfg, m, e, true), k, perMin, e.at) == Room(perMin, ts + (if TakesOn(cfg, m, e, k) then [e.at] else []), e.at)
  {
    PotentialAtLater(m, k, perMin, from, e.at);
    RoomGrows(perMin, ts, from, e.at);
    PotentialOfNext(cfg, m, e, k, perMin);
    RoomAfterACall(perMin, ts, e.at);
    assert ts + [] == ts;
  }

  /** After any history the bucket holds what the calls allowed in it leave. */
  lemma {:induction false} PotentialIsRoom(cfg: Config, m: Buckets, run: seq<Event>, from: Time, now: Time, k: string, perMin: int, ts: seq<Time>)
    requires Ordered(run, from) && from <= now && forall i :: 0 <= i < |run| ==> run[i].at <= now
    requires BucketsOk(m, from) && perMin >= 1 && LimitIs(cfg, run, k, perMin) && (k in m ==> m[k].perMin == perMin)
    requires Potential(m, k, perMin, from) == Room(perMin, ts, from)
    ensures Potential(AfterRun(cfg, m, run), k, perMin, now) == Room(perMin, ts + AllowedAt(cfg, m, run, k), now)
    decreases |run|
  {
    if run == [] {
      PotentialAtLater(m, k, perMin, from, now);
      RoomGrows(perMin, ts, from, now);
      assert ts + [] == ts;
    } else {
      var e, m' := run[0], Next(cfg, m, run[0], true);
      var ts' := ts + if TakesOn(cfg, m, e, k) then [e.at] else [];
      RoomOfNext(cfg, m, e, from, k, perMin, ts);
      StepOk(cfg, m, e, from, true);
      LimitsFitOn(cfg, m, e, k, perMin);
      LimitIsNext(cfg, run, k, perMin);
      PotentialIsRoom(cfg, m', run[1..], e.at, now, k, perMin, ts');
      assert ts + AllowedAt(cfg, m, run, k) == ts' + AllowedAt(cfg, m', run[1..], k);
    }
  }

  lemma LimitIsNext(cfg: Config, run: seq<Event>, k: string, perMin: int)
    requires run != [] && LimitIs(cfg, run, k, perMin)
    ensures LimitIs(cfg, run[1..], k, perMin)
    ensures forall i :: 0 <= i < |run[1..]| ==> run[1..][i] == run[i + 1]
  {
  }

  /** From the i-th allowed call on, the calls allowed and one more exceed the budget. */
  predicate Exceeds(perMin: int, ts: seq<Time>, i: nat, now: Time)
    requires i < |ts|
  {
    (|ts| - i + 1) as real > Budget(perMin, now - ts[i])
  }

  lemma {:induction false} NoRoomIff(perMin: int, ts: seq<Time>, now: Time)
    requires perMin >= 1
    ensures Room(perMin, ts, now) < 1.0 <==> exists i :: 0 <= i < |ts| && Exceeds(perMin, ts, i, now)
    decreases |ts|
  {
    if ts != [] {
      GainIsRate(perMin, now - ts[0]);
      NoRoomIff(perMin, ts[1..], now);
      assert Exceeds(perMin, ts, 0, now) <==> perMin as real + Gain(perMin, now - ts[0]) - |ts| as real < 1.0;
      forall i | 0 <= i < |ts[1..]| ensures Exceeds(perMin, ts[1..], i, now) <==> Exceeds(perMin, ts, i + 1, now) {}
      if i :| 0 <= i < |ts| && Exceeds(perMin, ts, i, now) {
        assert i > 0 ==> Exceeds(perMin, ts[1..], i - 1, now);
      }
    }
  }

  /**
   After any history, a call is refused exactly when from some earlier allowed call on its
   bucket on, the calls allowed since and this one are more than perMin + T * (perMin / 60),
   T being the time since; when every call on that bucket has its limit.
   */
  lemma {:induction false} RefusedIff(cfg: Config, before: seq<Event>, from: Time, now: Time, category: string, key: string)
    requires Limited(cfg, category) && LimitIs(cfg, before, BucketKey(category, key), LimitFor(cfg, category))
    requires Ordered(before, from) && from <= now && forall i :: 0 <= i < |before| ==> before[i].at <= now
    ensures var ts := AllowedAt(cfg, map[], before, BucketKey(category, key));
      !Step(cfg, AfterRun(cfg, map[], before), category, key, now).0 <==>
        exists i :: 0 <= i < |ts| && Exceeds(LimitFor(cfg, category), ts, i, now)
  {
    var k, perMin := BucketKey(category, key), LimitFor(cfg, category);
    var ts, m := AllowedAt(cfg, map[], before, k), AfterRun(cfg, map[], before);
    HistoryOk(cfg, map[], before, from, now, k, perMin);
    PotentialIsRoom(cfg, map[], before, from, now, k, perMin, []);
    assert [] + ts == ts;
    NoRoomIff(perMin, ts, now);
    LevelAtOnce(Fresh(perMin, now));
    assert k in m ==> Level(m[k].(lastSeen := now), now) == Level(m[k], now);
  }

  /** A limit given to one category holds for it, when positive, and moves no other; without one the default holds. */
  lemma LimitsAreConfigured(cfg: Config, category: string, n: int, other: string)
    ensures var cfg' := cfg.(perMinute := cfg.perMinute[category := n]);
      && LimitFor(cfg', category) == (if n > 0 then n else cfg.byDefault)
      && (other != category ==> LimitFor(cfg', other) == LimitFor(cfg, other))
    ensures LimitFor(cfg.(perMinute := map[]), other) == cfg.byDefault
  {
  }

  /** A category is never refused exactly when the limiter is off or it has no positive limit. */
  lemma {:induction false} NeverRefusedIff(cfg: Config, category: string, key: string, from: Time)
    ensures (forall run :: Ordered(run, from) && CallsAmong(run, {category}) ==> false !in Decisions(cfg, map[], run, true))
      <==> !cfg.enabled || LimitFor(cfg, category) <= 0
  {
    if cfg.enabled && LimitFor(cfg, category) > 0 {
      var perMin := LimitFor(cfg, category);
      var call := Call(category, key, from);
      var burst := Repeat(call, perMin + 1);
      RepeatOrdered(call, perMin + 1);
      LevelAtOnce(Fresh(perMin, from));
      BurstDecides(cfg, map[], call, perMin, perMin + 1, true);
      FirstOnlyRefuses(perMin, perMin + 1);
      forall i | 0 <= i < |burst| ensures burst[i] == call { assert burst[i] in burst; }
      assert Ordered(burst, from) && CallsAmong(burst, {category});
    } else {
      forall run | Ordered(run, from) && CallsAmong(run, {category}) ensures false !in Decisions(cfg, map[], run, true) {
        UnlimitedPasses(cfg, map[], run, category);
      }
    }
  }

  lemma {:induction false} FirstOnlyRefuses(left: nat, n: nat)
    requires left < n
    ensures false in FirstOnly(left, n)
  {
    if left > 0 { FirstOnlyRefuses(left - 1, n - 1); }
  }

  lemma {:induction false} UnlimitedPasses(cfg: Config, m: Buckets, run: seq<Event>, category: string)
    requires !Limited(cfg, category) && CallsAmong(run, {category})
    ensures false !in Decisions(cfg, m, run, true)
    decreases |run|
  {
    if run != [] {
      assert forall i :: 0 <= i < |run[1..]| ==> run[1..][i] == run[i + 1];
      assert run[0].Call? ==> run[0].category in {category};
      UnlimitedPasses(cfg, Next(cfg, m, run[0], true), run[1..], category);
    }
  }

  // ---- independence ----

  predicate OnBucket(e: Event, k: string) {
    e.Call? && BucketKey(e.category, e.key) == k
  }

  /** The calls on one bucket, with the janitor's ticks. */
  function Only(run: seq<Event>, k: string): seq<Event> {
    if run == [] then []
    else (if run[0].Tick? || OnBucket(run[0], k) then [run[0]] else []) + Only(run[1..], k)
  }

  function DecisionsOn(cfg: Config, m: Buckets, run: seq<Event>, k: string): seq<bool>
    decreases |run|
  {
    if run == [] then []
    else
      (if OnBucket(run[0], k) then [Step(cfg, m, run[0].category, run[0].key, run[0].at).0] else []) +
      DecisionsOn(cfg, Next(cfg, m, run[0], true), run[1..], k)
  }

  predicate SameAt(m: Buckets, m': Buckets, k: string) {
    (k in m <==> k in m') && (k in m ==> m[k] == m'[k])
  }

  /** Calls on other buckets never change a decision on this one. */
  lemma {:induction false} OthersDoNotMatter(cfg: Config, m: Buckets, m': Buckets, run: seq<Event>, k: string)
    requires SameAt(m, m', k)
    ensures DecisionsOn(cfg, m, run, k) == DecisionsOn(cfg, m', Only(run, k), k)
    decreases |run|
  {
    if run != [] {
      var e := run[0];
      if e.Tick? || OnBucket(e, k) {
        assert Only(run, k)[0] == e && Only(run, k)[1..] == Only(run[1..], k);
        OthersDoNotMatter(cfg, Next(cfg, m, e, true), Next(cfg, m', e, true), run[1..], k);
      } else {
        assert Only(run, k) == Only(run[1..], k);
        OthersDoNotMatter(cfg, Next(cfg, m, e, true), m', run[1..], k);
      }
    }
  }

  // ---- exactly which configurations hide eviction ----

  /** No bucket can be shared by two limited categories of the program with different limits. */
  ghost predicate NoClash(cfg: Config, categories: set<string>) {
    forall a, j, b, k :: a in categories && b in categories && Limited(cfg, a) && Limited(cfg, b) && BucketKey(a, j) == BucketKey(b, k) ==>
      LimitFor(cfg, a) == LimitFor(cfg, b)
  }

  predicate CallsAmong(run: seq<Event>, categories: set<string>) {
    forall i :: 0 <= i < |run| && run[i].Call? ==> run[i].category in categories
  }

  ghost predicate EvictionNeverShows(cfg: Config, categories: set<string>) {
    forall run, from :: Ordered(run, from) && CallsAmong(run, categories) ==>
      Decisions(cfg, map[], run, true) == Decisions(cfg, map[], run, false)
  }

  function Repeat(e: Event, n: nat): seq<Event> {
    if n == 0 then [] else [e] + Repeat(e, n - 1)
  }

  /** The decisions on n calls at one instant when `left` whole tokens are there. */
  function FirstOnly(left: nat, n: nat): seq<bool> {
    if n == 0 then [] else [left > 0] + FirstOnly(if left > 0 then left - 1 else 0, n - 1)
  }

  lemma {:induction false} FirstOnlyDiffers(less: nat, more: nat)
    requires less < more
    ensures FirstOnly(less, less + 1) != FirstOnly(more, less + 1)
  {
    if less > 0 {
      FirstOnlyDiffers(less - 1, more - 1);
      assert FirstOnly(less, less + 1)[1..] == FirstOnly(less - 1, less) && FirstOnly(more, less + 1)[1..] == FirstOnly(more - 1, less);
    } else {
      assert FirstOnly(0, 1)[0] != FirstOnly(more, 1)[0];
    }
  }

  lemma {:induction false} RepeatOrdered(e: Event, n: nat)
    ensures Ordered(Repeat(e, n), e.at) && forall x :: x in Repeat(e, n) ==> x == e
  {
    if n > 0 {
      RepeatOrdered(e, n - 1);
      assert ([e] + Repeat(e, n - 1))[1..] == Repeat(e, n - 1);
    }
  }

  lemma DecideOne(cfg: Config, m: Buckets, e: Event, rest: seq<Event>, evicts: bool)
    ensures Decisions(cfg, m, [e] + rest, evicts) ==
      (if e.Call? then [Step(cfg, m, e.category, e.key, e.at).0] else []) + Decisions(cfg, Next(cfg, m, e, evicts), rest, evicts)
  {
    assert ([e] + rest)[1..] == rest;
  }

  /** One more call at the same instant takes one whole token, if there is one. */
  lemma TakeAtOnce(e: Entry, now: Time, left: nat)
    requires EntryOk(e, now) && e.lastSeen == now && Level(e, now) == left as real
    ensures var (ok, e') := Take(e, now);
      && ok == (left > 0) && EntryOk(e', now) && e'.perMin == e.perMin && e'.lastSeen == e.lastSeen
      && Level(e', now) == (if left > 0 then (left - 1) as real else 0.0)
  {
    LevelOk(e, now);
    if left > 0 {
      GainGrows(e.perMin, 0.0, 0.0);
      GainAdds(e.perMin, 0.0, 0.0);
    }
  }

  /** A burst on a bucket with `left` tokens: the first `left` calls pass. */
  lemma {:induction false} BurstDecides(cfg: Config, m: Buckets, e: Event, left: nat, n: nat, evicts: bool)
    requires e.Call? && Limited(cfg, e.category)
    requires var x := Seen(m, BucketKey(e.category, e.key), LimitFor(cfg, e.category), e.at);
      EntryOk(x, e.at) && Level(x, e.at) == left as real
    ensures Decisions(cfg, m, Repeat(e, n), evicts) == FirstOnly(left, n)
    decreases n
  {
    if n > 0 {
      var x := Seen(m, BucketKey(e.category, e.key), LimitFor(cfg, e.category), e.at);
      TakeAtOnce(x, e.at, left);
      DecideOne(cfg, m, e, Repeat(e, n - 1), evicts);
      BurstDecides(cfg, Next(cfg, m, e, evicts), e, if left > 0 then left - 1 else 0, n - 1, evicts);
    }
  }

  const LONG := 2000.0

  /** One call of `a`, an idle half hour and a tick, then one call more of `b` than `a`'s limit. */
  function ClashRun(cfg: Config, a: string, j: string, b: string, k: string): seq<Event>
    requires LimitFor(cfg, a) >= 0
  {
    [Call(a, j, 0.0)] + ([Tick(LONG)] + Repeat(Call(b, k, LONG), LimitFor(cfg, a) + 1))
  }

  lemma ClashRunOrdered(cfg: Config, a: string, j: string, b: string, k: string)
    requires LimitFor(cfg, a) >= 0
    ensures Ordered(ClashRun(cfg, a, j, b, k), 0.0) && CallsAmong(ClashRun(cfg, a, j, b, k), {a, b})
  {
    var burst := Repeat(Call(b, k, LONG), LimitFor(cfg, a) + 1);
    RepeatOrdered(Call(b, k, LONG), LimitFor(cfg, a) + 1);
    assert ([Call(a, j, 0.0)] + ([Tick(LONG)] + burst))[1..] == [Tick(LONG)] + burst;
    assert ([Tick(LONG)] + burst)[1..] == burst;
    forall x | x in ClashRun(cfg, a, j, b, k) && x.Call? ensures x.category in {a, b} {
      assert x == Call(a, j, 0.0) || x in burst;
    }
  }

  /** The bucket the first call leaves: of `a`'s limit, full again and due for eviction at the tick. */
  lemma FirstCallLeaves(cfg: Config, a: string, j: string) returns (m: Buckets)
    requires Limited(cfg, a)
    ensures m == Next(cfg, map[], Call(a, j, 0.0), true) == Next(cfg, map[], Call(a, j, 0.0), false)
    ensures m.Keys == {BucketKey(a, j)} && EntryOk(m[BucketKey(a, j)], 0.0) && m[BucketKey(a, j)].perMin == LimitFor(cfg, a)
    ensures Kept(m, LONG) == map[] && Level(m[BucketKey(a, j)], LONG) == LimitFor(cfg, a) as real
  {
    LevelAtOnce(Fresh(LimitFor(cfg, a), 0.0));
    TakeAtOnce(Fresh(LimitFor(cfg, a), 0.0), 0.0, LimitFor(cfg, a));
    m := Next(cfg, map[], Call(a, j, 0.0), true);
    IdleIsFull(m[BucketKey(a, j)], LONG);
  }

  lemma ClashShows(cfg: Config, a: string, j: string, b: string, k: string)
    requires Limited(cfg, a) && Limited(cfg, b) && BucketKey(a, j) == BucketKey(b, k) && LimitFor(cfg, a) < LimitFor(cfg, b)
    ensures Decisions(cfg, map[], ClashRun(cfg, a, j, b, k), true) != Decisions(cfg, map[], ClashRun(cfg, a, j, b, k), false)
  {
    var n := LimitFor(cfg, a) + 1;
    var first, call := Call(a, j, 0.0), Call(b, k, LONG);
    var m := FirstCallLeaves(cfg, a, j);
    var none: Buckets := map[];
    LevelAtOnce(Fresh(LimitFor(cfg, b), LONG));
    BurstDecides(cfg, none, call, LimitFor(cfg, b), n, true);
    BurstDecides(cfg, m, call, LimitFor(cfg, a), n, false);
    TicksDecide(cfg, none, m, first, call, n);
    FirstOnlyDiffers(LimitFor(cfg, a), LimitFor(cfg, b));
    SameHead(Step(cfg, none, a, j, 0.0).0, FirstOnly(LimitFor(cfg, b), n), FirstOnly(LimitFor(cfg, a), n));
  }

  lemma SameHead(d: bool, xs: seq<bool>, ys: seq<bool>)
    requires xs != ys
    ensures [d] + xs != [d] + ys
  {
    assert ([d] + xs)[1..] == xs && ([d] + ys)[1..] == ys;
  }

  lemma TicksDecide(cfg: Config, none: Buckets, m: Buckets, first: Event, call: Event, n: nat)
    requires none == map[] && first.Call? && Kept(m, LONG) == none
    requires m == Next(cfg, none, first, true) == Next(cfg, none, first, false)
    ensures var (run, d) := ([first] + ([Tick(LONG)] + Repeat(call, n)), [Step(cfg, none, first.category, first.key, first.at).0]);
      && Decisions(cfg, none, run, true) == d + Decisions(cfg, none, Repeat(call, n), true)
      && Decisions(cfg, none, run, false) == d + Decisions(cfg, m, Repeat(call, n), false)
  {
    DecideOne(cfg, none, first, [Tick(LONG)] + Repeat(call, n), true);
    DecideOne(cfg, none, first, [Tick(LONG)] + Repeat(call, n), false);
    DecideOne(cfg, m, Tick(LONG), Repeat(call, n), true);
    DecideOne(cfg, m, Tick(LONG), Repeat(call, n), false);
  }

  /**
   A program hides eviction from every run in time order exactly when no two of its limited
   categories with different limits can share a bucket.
   */
  lemma EvictionNeverShowsIff(cfg: Config, categories: set<string>)
    ensures EvictionNeverShows(cfg, categories) <==> NoClash(cfg, categories)
  {
    if NoClash(cfg, categories) {
      forall run, from | Ordered(run, from) && CallsAmong(run, categories)
        ensures Decisions(cfg, map[], run, true) == Decisions(cfg, map[], run, false)
      {
        EvictionIsInvisible(cfg, run, from);
      }
    } else {
      var a, j, b, k :| a in categories && b in categories && Limited(cfg, a) && Limited(cfg, b) &&
        BucketKey(a, j) == BucketKey(b, k) && LimitFor(cfg, a) != LimitFor(cfg, b);
      if LimitFor(cfg, a) < LimitFor(cfg, b) {
        ClashIsSeen(cfg, categories, a, j, b, k);
      } else {
        ClashIsSeen(cfg, categories, b, k, a, j);
      }
    }
  }

  lemma ClashIsSeen(cfg: Config, categories: set<string>, a: string, j: string, b: string, k: string)
    requires a in categories && b in categories
    requires Limited(cfg, a) && Limited(cfg, b) && BucketKey(a, j) == BucketKey(b, k) && LimitFor(cfg, a) < LimitFor(cfg, b)
    ensures !EvictionNeverShows(cfg, categories)
  {
    ClashShows(cfg, a, j, b, k);
    ClashRunOrdered(cfg, a, j, b, k);
    assert CallsAmong(ClashRun(cfg, a, j, b, k), categories);
  }

  /** A clash needs a bar: categories without one never have it, whatever their limits. */
  lemma BarFreeNeverClash(cfg: Config, categories: set<string>)
    requires forall c :: c in categories ==> BarFree(c)
    ensures NoClash(cfg, categories)
  {
    forall a, j, b, k | a in categories && b in categories && BucketKey(a, j) == BucketKey(b, k)
      ensures LimitFor(cfg, a) == LimitFor(cfg, b)
    {
      BucketKeysCollideIff(a, j, b, k);
    }
  }

  /** The categories of the program (internal/router/router.go:48-55) have no bar. */
  lemma TheProgramHidesEviction(cfg: Config)
    ensures EvictionNeverShows(cfg, {"auth", "chat", "upload"})
  {
    BarFreeNeverClash(cfg, {"auth", "chat", "upload"});
    EvictionNeverShowsIff(cfg, {"auth", "chat", "upload"});
  }
}
