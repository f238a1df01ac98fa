/** The rate limiter: one lazily leaking bucket per key. */
module RateLimiter {
  import opened Options

  /** The tokens added since the bucket was last empty, when that was, and its leak rate. */
  datatype Bucket = Bucket(count: int, start: real, rate: real)

  /** The answer to a request, or a division by a zero rate. */
  datatype Decision = Raised | Decided(allowed: bool, nextTime: real)

  function Larger(x: real, y: real): real {
    if x >= y then x else y
  }

  /** What leaks out in a time. */
  function Leak(rate: real, dt: real): real {
    dt * rate
  }

  /** Tokens left in a bucket, going negative once it has been empty for a while. */
  function Remaining(b: Bucket, rate: real, now: real): real {
    b.count as real - Leak(rate, now - b.start)
  }

  lemma LeakFromNow(rate: real, now: real)
    ensures Leak(rate, now - now) == 0.0
  {
  }

  /** How long `count` tokens take to leak. */
  function Quotient(count: int, rate: real): real
    requires rate != 0.0
  {
    count as real / rate
  }

  function BucketAt<K>(actions: map<K, Bucket>, key: K, now: real, defaultRate: real): Bucket {
    if key in actions then actions[key] else Bucket(0, now, defaultRate)
  }

  /** An entry that would already have drained is dropped instead of stored. */
  function Stored<K>(actions: map<K, Bucket>, key: K, b: Bucket, now: real): map<K, Bucket>
    requires b.rate != 0.0
  {
    if b.start + Quotient(b.count, b.rate) <= now then actions - {key} else actions[key := b]
  }

  /** A bucket that has drained restarts at the present. */
  function Restarted(b: Bucket, rate: real, now: real): Bucket {
    if Remaining(b, rate, now) < 0.0 then Bucket(0, now, rate) else b.(rate := rate)
  }

  /** The reply and the new entries for a request of `n` actions. */
  function Request<K>(actions: map<K, Bucket>, key: K, rate: real, burst: int, update: bool, n: int, now: real):
      (Decision, map<K, Bucket>)
  {
    var b := Restarted(BucketAt(actions, key, now, rate), rate, now);
    var allowed := Remaining(b, rate, now) <= (burst - n) as real;
    var after := if allowed then b.(count := b.count + n) else b;
    if allowed && update && rate == 0.0 then (Raised, actions)
    else (Decided(allowed, NextTime(after, burst, now)),
          if allowed && update then Stored(actions, key, after, now) else actions)
  }

  function NextTime(b: Bucket, burst: int, now: real): real {
    if b.rate > 0.0 then Larger(b.start + Quotient(b.count - burst + 1, b.rate), now) else -1.0
  }

  predicate Drained(b: Bucket, now: real) {
    Remaining(b, b.rate, now) <= 0.0
  }

  class Ratelimiter<K(==)> {
    const rateHz: real
    const burstCount: int
    var actions: map<K, Bucket>

    constructor (rateHz: real, burstCount: int)
      ensures actions == map[] && this.rateHz == rateHz && this.burstCount == burstCount
    {
      this.rateHz := rateHz;
      this.burstCount := burstCount;
      actions := map[];
    }

    /** Ask to perform `n` actions. `exempt` stands for the lookups that switch limiting off. */
    method CanDoAction(exempt: bool, key: K, rateHz: Option<real>, burstCount: Option<int>, update: bool, n: int,
        now: real)
      returns (r: Decision)
      modifies this`actions
      ensures exempt ==> r == Decided(true, -1.0) && actions == old(actions)
      ensures !exempt ==>
        var rate, burst := rateHz.GetOr(this.rateHz), burstCount.GetOr(this.burstCount);
        (r, actions) == Request(old(actions), key, rate, burst, update, n, now)
    {
      hide Leak, Quotient, Stored;
      if exempt {
        return Decided(true, -1.0);
      }
      var rate := rateHz.GetOr(this.rateHz);
      var burst := burstCount.GetOr(this.burstCount);
      var b := BucketAt(actions, key, now, rate);
      var count, start := b.count, b.start;
      var performed := count as real - Leak(rate, now - start);
      if performed < 0.0 {
        performed := 0.0;
        count := 0;
        start := now;
      }
      LeakFromNow(rate, now);
      var allowed := !(performed > (burst - n) as real);
      if allowed {
        count := count + n;
      }
      assert Bucket(count, start, rate)
          == if allowed then Restarted(b, rate, now).(count := Restarted(b, rate, now).count + n)
              else Restarted(b, rate, now);
      if allowed && update {
        if rate == 0.0 {
          return Raised;
        }
        RecordInner(key, Bucket(count, start, rate), now);
      }
      var next := -1.0;
      if rate > 0.0 {
        next := start + Quotient(count - burst + 1, rate);
        if next < now {
          next := now;
        }
      }
      r := Decided(allowed, next);
    }

    /** Record `n` actions (or refund, when negative) whether or not there is room for them. */
    method RecordAction(key: K, n: int, now: real) returns (raised: bool)
      modifies this`actions
      ensures var b := BucketAt(old(actions), key, now, rateHz);
        && raised == (b.rate == 0.0)
        && actions == if raised then old(actions) else Stored(old(actions), key, b.(count := b.count + n), now)
    {
      var b := BucketAt(actions, key, now, rateHz);
      if b.rate == 0.0 {
        return true;
      }
      RecordInner(key, b.(count := b.count + n), now);
      raised := false;
    }

    method RecordInner(key: K, b: Bucket, now: real)
      requires b.rate != 0.0
      modifies this`actions
      ensures actions == Stored(old(actions), key, b, now)
    {
      var pruneTime := b.start + Quotient(b.count, b.rate);
      if pruneTime <= now {
        actions := actions - {key};
        return;
      }
      actions := actions[key := b];
    }

    /** Drop the entries among the timer's keys that have drained. */
    method PruneMessageCounts(toPrune: seq<K>, now: real)
      modifies this`actions
      ensures actions == map k | k in old(actions) && !(k in toPrune && Drained(old(actions)[k], now)) ::
          old(actions)[k]
    {
      for i := 0 to |toPrune|
        invariant actions == map k | k in old(actions) && !(k in toPrune[..i] && Drained(old(actions)[k], now)) ::
            old(actions)[k]
      {
        var key := toPrune[i];
        assert toPrune[..i + 1] == toPrune[..i] + [key];
        if key in actions && Remaining(actions[key], actions[key].rate, now) <= 0.0 {
          actions := actions - {key};
        }
      }
      assert toPrune[..|toPrune|] == toPrune;
    }
  }
}

/** What the lazy buckets amount to over whole runs. */
module RateLimiterRuns {
  import opened Options
  import opened RateLimiter

  // ---- One bucket ----

  /** The level of a key at a time: what a bucket that leaks continuously would hold. */
  function Level<K>(actions: map<K, Bucket>, key: K, rate: real, t: real): real {
    if key in actions then Larger(0.0, Remaining(actions[key], rate, t)) else 0.0
  }

  lemma LeakAdds(rate: real, dt: real, dt': real)
    ensures Leak(rate, dt + dt') == Leak(rate, dt) + Leak(rate, dt')
  {
  }

  lemma LeakSplits(b: Bucket, rate: real, now: real, t: real)
    ensures Remaining(b, rate, t) == Remaining(b, rate, now) - Leak(rate, t - now)
  {
    LeakAdds(rate, now - b.start, t - now);
    assert (now - b.start) + (t - now) == t - b.start;
  }

  lemma LeakIsNonNegative(rate: real, dt: real)
    requires rate > 0.0 && dt >= 0.0
    ensures Leak(rate, dt) >= 0.0
  {
  }

  lemma DrainTime(count: int, rate: real, start: real, t: real)
    requires rate > 0.0
    ensures start + Quotient(count, rate) <= t <==> count as real <= Leak(rate, t - start)
  {
    var q := count as real / rate;
    assert q * rate == count as real;
    if q <= t - start {
      assert q * rate <= (t - start) * rate;
    } else {
      assert q * rate > (t - start) * rate;
    }
  }

  /** A request is allowed exactly when its tokens fit on top of the leaked level; if so they are
      added, if not nothing changes. Other keys are untouched. */
  lemma RequestIsEager<K>(actions: map<K, Bucket>, key: K, rate: real, burst: int, update: bool, n: nat, now: real,
      t: real)
    requires rate > 0.0 && t >= now
    ensures var (r, after) := Request(actions, key, rate, burst, update, n, now);
      && r.Decided?
      && (r.allowed <==> Level(actions, key, rate, now) + n as real <= burst as real)
      && (r.allowed && update ==>
            Level(after, key, rate, t) == Larger(0.0, Level(actions, key, rate, now) + n as real - Leak(rate, t - now)))
      && (!(r.allowed && update) ==> after == actions)
      && (forall k | k != key :: Get(after, k) == Get(actions, k))
      && (key in after ==> after[key].rate == rate || after == actions)
  {
    hide Leak, Quotient;
    var b := Restarted(BucketAt(actions, key, now, rate), rate, now);
    var stored := b.(count := b.count + n);
    LeakSplits(stored, rate, now, t);
    DrainTime(stored.count, rate, stored.start, now);
    LeakIsNonNegative(rate, t - now);
    assert Remaining(stored, rate, now) == Remaining(b, rate, now) + n as real;
    assert Level(actions, key, rate, now) == Remaining(b, rate, now);
  }

  // ---- In numbers ----

  lemma LevelInNumbers<K>(actions: map<K, Bucket>, key: K, rate: real, t: real)
    ensures Level(actions, key, rate, t)
         == if key !in actions || actions[key].count as real <= (t - actions[key].start) * rate then 0.0
            else actions[key].count as real - (t - actions[key].start) * rate
  {
  }

  /** A request of `n` actions passes exactly if they fit on the level. A recorded pass brings the level
      to their sum, and leaves an entry, at the request's rate, only if that is more than nothing; from
      then on the level falls by the rate. */
  lemma RequestInNumbers<K>(actions: map<K, Bucket>, key: K, rate: real, burst: int, update: bool, n: nat, now: real,
      t: real)
    requires rate > 0.0 && t >= now
    ensures var (r, after) := Request(actions, key, rate, burst, update, n, now);
      var level := Level(actions, key, rate, now);
      && r.Decided? && (r.allowed <==> level + n as real <= burst as real)
      && (r.allowed && update ==>
            && (key in after <==> level + n as real > 0.0)
            && (key in after ==> after[key].rate == rate)
            && var left := level + n as real - (t - now) * rate;
               Level(after, key, rate, t) == if left <= 0.0 then 0.0 else left)
      && (!(r.allowed && update) ==> after == actions)
      && forall k | k != key :: Get(after, k) == Get(actions, k)
  {
    RequestIsEager(actions, key, rate, burst, update, n, now, t);
    RequestIsEager(actions, key, rate, burst, update, n, now, now);
    EntryIsNeeded(actions, key, rate, burst, update, n, now);
    LeakIs(rate, t - now);
    hide Leak, Quotient, Request, Level;
  }

  lemma LeakIs(rate: real, dt: real)
    ensures Leak(rate, dt) == dt * rate
  {
  }

  lemma EntryIsNeeded<K>(actions: map<K, Bucket>, key: K, rate: real, burst: int, update: bool, n: nat, now: real)
    requires rate > 0.0
    ensures var (r, after) := Request(actions, key, rate, burst, update, n, now);
      r.Decided? && r.allowed && update ==>
        && (key in after <==> Level(actions, key, rate, now) + n as real > 0.0)
        && (key in after ==> after[key].rate == rate)
  {
    hide Leak, Quotient;
    var b := Restarted(BucketAt(actions, key, now, rate), rate, now);
    var stored := b.(count := b.count + n);
    LeakFromNow(rate, now);
    DrainTime(stored.count, rate, stored.start, now);
    assert Remaining(stored, rate, now) == Remaining(b, rate, now) + n as real;
    assert Level(actions, key, rate, now) == Remaining(b, rate, now);
  }

  /** With a rate of zero nothing leaks, no time is given, and a pass that is to be recorded raises. */
  lemma ZeroRateNeverDrains<K>(actions: map<K, Bucket>, key: K, burst: int, update: bool, n: nat, now: real)
    ensures var (r, after) := Request(actions, key, 0.0, burst, update, n, now);
      var count := if key in actions then Max(actions[key].count, 0) else 0;
      && after == actions
      && (r.Raised? <==> update && count + n <= burst)
      && (r.Decided? ==> r.nextTime == -1.0 && (r.allowed <==> count + n <= burst))
  {
    LeakIs(0.0, if key in actions then now - actions[key].start else 0.0);
  }

  /** Recording adds to the count of the entry, or to a new one from now on at the default rate, and drops
      an entry that would have drained by now. */
  lemma RecordInNumbers<K>(actions: map<K, Bucket>, key: K, defaultRate: real, n: int, now: real)
    requires BucketAt(actions, key, now, defaultRate).rate > 0.0
    ensures var b := if key in actions then actions[key] else Bucket(0, now, defaultRate);
      var after := Stored(actions, key, b.(count := b.count + n), now);
      b == BucketAt(actions, key, now, defaultRate)
      && after == if (b.count + n) as real <= (now - b.start) * b.rate then actions - {key}
                  else actions[key := Bucket(b.count + n, b.start, b.rate)]
  {
    var b := BucketAt(actions, key, now, defaultRate);
    DrainTime(b.count + n, b.rate, b.start, now);
    LeakIs(b.rate, now - b.start);
    hide Leak, Quotient;
  }

  lemma DrainedInNumbers(b: Bucket, now: real)
    ensures Drained(b, now) <==> b.count as real <= (now - b.start) * b.rate
  {
  }

  /** The time handed back with a refusal, or with a recorded acceptance, is the first moment at
      which the next single action is accepted if nothing happens in between. */
  lemma RetryHintIsExact<K>(actions: map<K, Bucket>, key: K, rate: real, burst: int, n: nat, now: real, t: real)
    requires rate > 0.0 && burst >= 1 && t >= now
    ensures var (r, after) := Request(actions, key, rate, burst, true, n, now);
      && r.Decided? && r.nextTime >= now
      && (Request(after, key, rate, burst, true, 1, t).0.allowed <==> t >= r.nextTime)
  {
    hide Leak, Quotient;
    var (r, after) := Request(actions, key, rate, burst, true, n, now);
    RequestIsEager(actions, key, rate, burst, true, n, now, t);
    RequestIsEager(after, key, rate, burst, true, 1, t, t);
    var b := Restarted(BucketAt(actions, key, now, rate), rate, now);
    var b' := if r.allowed then b.(count := b.count + n) else b;
    LeakSplits(b', rate, now, t);
    LeakIsNonNegative(rate, t - now);
    DrainTime(b'.count - burst + 1, rate, b'.start, t);
    if !r.allowed {
      RefusedLevel(actions, key, rate, now, t);
    }
  }

  /** While nothing is recorded the level only leaks. */
  lemma RefusedLevel<K>(actions: map<K, Bucket>, key: K, rate: real, now: real, t: real)
    requires rate > 0.0 && t >= now
    ensures Level(actions, key, rate, t) == Larger(0.0, Level(actions, key, rate, now) - Leak(rate, t - now))
  {
    hide Leak, Quotient;
    LeakIsNonNegative(rate, t - now);
    if key in actions {
      LeakSplits(actions[key], rate, now, t);
    }
  }

  /** A stored bucket has been empty for some time without being restarted. */
  predicate Stale<K>(actions: map<K, Bucket>, key: K, now: real) {
    key in actions && Remaining(actions[key], actions[key].rate, now) < 0.0
  }

  /** Recording outright adds to the leaked level, unless the bucket is stale and tokens are being
      added: then it credits the idle time against them. */
  lemma RecordIsEagerUnlessStale<K>(actions: map<K, Bucket>, key: K, defaultRate: real, n: int, now: real)
    requires BucketAt(actions, key, now, defaultRate).rate > 0.0
    ensures var b := BucketAt(actions, key, now, defaultRate);
      var after := Stored(actions, key, b.(count := b.count + n), now);
      (forall t | t >= now :: Level(after, key, b.rate, t)
         == Larger(0.0, Larger(0.0, Level(actions, key, b.rate, now) + n as real) - Leak(b.rate, t - now)))
      <==> !(Stale(actions, key, now) && n >= 1)
  {
    hide Leak, Quotient;
    var b := BucketAt(actions, key, now, defaultRate);
    var stored := b.(count := b.count + n);
    var after := Stored(actions, key, stored, now);
    DrainTime(stored.count, b.rate, b.start, now);
    assert Remaining(stored, b.rate, now) == Remaining(b, b.rate, now) + n as real;
    if Stale(actions, key, now) && n >= 1 {
      assert Level(after, key, b.rate, now) < n as real;
      LeakFromNow(b.rate, now);
    } else {
      forall t | t >= now
        ensures Level(after, key, b.rate, t)
             == Larger(0.0, Larger(0.0, Level(actions, key, b.rate, now) + n as real) - Leak(b.rate, t - now))
      {
        LeakSplits(stored, b.rate, now, t);
        LeakIsNonNegative(b.rate, t - now);
      }
    }
  }

  // ---- Runs ----

  datatype Op<K> =
    | Try(key: K, n: nat, update: bool, now: real)
    | Prune(keys: set<K>, now: real)

  /** A limiter with one leak rate and one burst count per key. */
  datatype Config<!K> = Config(rate: K -> real, burst: K -> int)

  ghost predicate ConfigOk<K(!new)>(c: Config<K>) {
    forall k :: c.rate(k) > 0.0 && c.burst(k) >= 0
  }

  /** The entries after the first `i` operations. */
  function LazyAt<K(==)>(c: Config<K>, ops: seq<Op<K>>, i: nat): map<K, Bucket>
    requires i <= |ops|
  {
    if i == 0 then map[]
    else
      var before := LazyAt(c, ops, i - 1);
      match ops[i - 1]
      case Try(key, n, update, now) => Request(before, key, c.rate(key), c.burst(key), update, n, now).1
      case Prune(keys, now) => map k | k in before && !(k in keys && Drained(before[k], now)) :: before[k]
  }

  /** The answer to the `i`th operation, when it is a request. */
  predicate LazyAllows<K(==)>(c: Config<K>, ops: seq<Op<K>>, i: nat)
    requires i < |ops| && ops[i].Try?
  {
    var op := ops[i];
    var r := Request(LazyAt(c, ops, i), op.key, c.rate(op.key), c.burst(op.key), op.update, op.n, op.now).0;
    r.Decided? && r.allowed
  }

  /** The eager bucket: a level and the time at which it had that level. */
  datatype Meter = Meter(level: real, at: real)

  function MeterLevel<K>(meters: map<K, Meter>, k: K, rate: real, t: real): real {
    if k in meters then Larger(0.0, meters[k].level - Leak(rate, t - meters[k].at)) else 0.0
  }

  predicate EagerAllows<K>(c: Config<K>, meters: map<K, Meter>, op: Op<K>)
    requires op.Try?
  {
    MeterLevel(meters, op.key, c.rate(op.key), op.now) + op.n as real <= c.burst(op.key) as real
  }

  function EagerStep<K>(c: Config<K>, meters: map<K, Meter>, op: Op<K>): map<K, Meter> {
    if op.Try? && op.update && EagerAllows(c, meters, op) then
      meters[op.key := Meter(MeterLevel(meters, op.key, c.rate(op.key), op.now) + op.n as real, op.now)]
    else meters
  }

  function EagerAt<K(==)>(c: Config<K>, ops: seq<Op<K>>, i: nat): map<K, Meter>
    requires i <= |ops|
  {
    if i == 0 then map[] else EagerStep(c, EagerAt(c, ops, i - 1), ops[i - 1])
  }

  ghost predicate Timely<K>(ops: seq<Op<K>>) {
    forall i, j | 0 <= i <= j < |ops| :: ops[i].now <= ops[j].now
  }

  /** From a time on, the lazy entry and the eager meter of a key show the same level. */
  ghost predicate SameLevel<K>(c: Config<K>, ops: seq<Op<K>>, i: nat, k: K, t: real)
    requires i <= |ops|
  {
    Level(LazyAt(c, ops, i), k, c.rate(k), t) == MeterLevel(EagerAt(c, ops, i), k, c.rate(k), t)
  }

  /** Stored entries carry their key's rate. */
  lemma {:induction false} RatesKept<K(!new)>(c: Config<K>, ops: seq<Op<K>>, i: nat)
    requires ConfigOk(c) && i <= |ops|
    ensures forall k <- LazyAt(c, ops, i) :: LazyAt(c, ops, i)[k].rate == c.rate(k)
  {
    if i > 0 {
      RatesKept(c, ops, i - 1);
      var op := ops[i - 1];
      if op.Try? {
        RequestIsEager(LazyAt(c, ops, i - 1), op.key, c.rate(op.key), c.burst(op.key), op.update, op.n, op.now, op.now);
        forall k <- LazyAt(c, ops, i) ensures LazyAt(c, ops, i)[k].rate == c.rate(k) {
          assert k != op.key ==> Get(LazyAt(c, ops, i), k) == Get(LazyAt(c, ops, i - 1), k);
        }
      }
    }
  }

  lemma PruneKeepsLevel<K(!new)>(before: map<K, Bucket>, keys: set<K>, now: real, k: K, rate: real, t: real)
    requires t >= now && rate > 0.0 && (k in before ==> before[k].rate == rate)
    ensures var after := map x | x in before && !(x in keys && Drained(before[x], now)) :: before[x];
      Level(after, k, rate, t) == Level(before, k, rate, t)
  {
    hide Leak;
    if k in before && Drained(before[k], now) {
      LeakSplits(before[k], rate, now, t);
      LeakIsNonNegative(rate, t - now);
    }
  }

  /** The lazy limiter with pruning refines the eager one: same levels at all later times. */
  lemma {:induction false} LevelsCoincide<K(!new)>(c: Config<K>, ops: seq<Op<K>>, i: nat, k: K, t: real)
    requires ConfigOk(c) && Timely(ops) && i <= |ops|
    requires i > 0 ==> t >= ops[i - 1].now
    ensures SameLevel(c, ops, i, k, t)
  {
    if i > 0 {
      hide Request, Leak;
      var op := ops[i - 1];
      var before, meters := LazyAt(c, ops, i - 1), EagerAt(c, ops, i - 1);
      LevelsCoincide(c, ops, i - 1, k, t);
      if op.Try? {
        RequestIsEager(before, op.key, c.rate(op.key), c.burst(op.key), op.update, op.n, op.now, t);
        if k == op.key {
          LevelsCoincide(c, ops, i - 1, k, op.now);
        } else {
          assert Get(LazyAt(c, ops, i), k) == Get(before, k);
        }
      } else {
        RatesKept(c, ops, i - 1);
        PruneKeepsLevel(before, op.keys, op.now, k, c.rate(k), t);
      }
    }
  }

  /** ... and so the same verdicts. */
  lemma VerdictsCoincide<K(!new)>(c: Config<K>, ops: seq<Op<K>>, i: nat)
    requires ConfigOk(c) && Timely(ops) && i < |ops| && ops[i].Try?
    ensures LazyAllows(c, ops, i) <==> EagerAllows(c, EagerAt(c, ops, i), ops[i])
  {
    var op := ops[i];
    LevelsCoincide(c, ops, i, op.key, op.now);
    RequestIsEager(LazyAt(c, ops, i), op.key, c.rate(op.key), c.burst(op.key), op.update, op.n, op.now, op.now);
  }

  /** The level never leaves [0, burst]. */
  lemma {:induction false} LevelStaysInBurst<K(!new)>(c: Config<K>, ops: seq<Op<K>>, i: nat, k: K, t: real)
    requires ConfigOk(c) && Timely(ops) && i <= |ops|
    requires i > 0 ==> t >= ops[i - 1].now
    ensures 0.0 <= Level(LazyAt(c, ops, i), k, c.rate(k), t) <= c.burst(k) as real
  {
    hide Request, Leak;
    LevelsCoincide(c, ops, i, k, t);
    if i > 0 {
      var op := ops[i - 1];
      LevelStaysInBurst(c, ops, i - 1, k, t);
      LevelsCoincide(c, ops, i - 1, k, t);
      LeakIsNonNegative(c.rate(k), t - op.now);
    }
  }

  /** Tokens accepted and recorded for a key among operations `i` to `j`. */
  function Accepted<K(==)>(c: Config<K>, ops: seq<Op<K>>, i: nat, j: nat, k: K): nat
    requires i <= j <= |ops|
  {
    if i == j then 0
    else
      Accepted(c, ops, i, j - 1, k)
      + if ops[j - 1].Try? && ops[j - 1].key == k && ops[j - 1].update && LazyAllows(c, ops, j - 1)
        then ops[j - 1].n else 0
  }

  /** What was accepted since `t1` is still in the bucket, but for what has leaked since. */
  lemma {:induction false} AcceptedIsHeld<K(!new)>(c: Config<K>, ops: seq<Op<K>>, i: nat, j: nat, k: K, t1: real,
      t: real)
    requires ConfigOk(c) && Timely(ops) && i <= j <= |ops| && t >= t1
    requires forall m | i <= m < j :: t1 <= ops[m].now <= t
    ensures MeterLevel(EagerAt(c, ops, j), k, c.rate(k), t)
         >= Accepted(c, ops, i, j, k) as real - Leak(c.rate(k), t - t1)
  {
    hide Request, Leak;
    if i == j {
      LeakIsNonNegative(c.rate(k), t - t1);
    } else {
      var op := ops[j - 1];
      AcceptedIsHeld(c, ops, i, j - 1, k, t1, t);
      if op.Try? && op.key == k {
        VerdictsCoincide(c, ops, j - 1);
        AcceptedIsHeld(c, ops, i, j - 1, k, t1, op.now);
        LeakAdds(c.rate(k), op.now - t1, t - op.now);
        assert (op.now - t1) + (t - op.now) == t - t1;
      }
    }
  }

  lemma {:induction false} LeakBound<K(!new)>(c: Config<K>, ops: seq<Op<K>>, i: nat, j: nat, k: K, t1: real, t2: real)
    requires ConfigOk(c) && Timely(ops) && i <= j <= |ops| && t1 <= t2
    requires forall m | i <= m < j :: t1 <= ops[m].now <= t2
    ensures Accepted(c, ops, i, j, k) as real <= c.burst(k) as real + Leak(c.rate(k), t2 - t1)
  {
    hide Request, Leak;
    if i == j {
      LeakIsNonNegative(c.rate(k), t2 - t1);
    } else {
      AcceptedIsHeld(c, ops, i, j, k, t1, t2);
      LevelStaysInBurst(c, ops, j, k, t2);
      LevelsCoincide(c, ops, j, k, t2);
    }
  }

  /** In any window of any run, no more than the burst plus what leaks in the window is accepted. */
  lemma {:induction false} RateBound<K(!new)>(c: Config<K>, ops: seq<Op<K>>, i: nat, j: nat, k: K, t1: real, t2: real)
    requires ConfigOk(c) && Timely(ops) && i <= j <= |ops| && t1 <= t2
    requires forall m | i <= m < j :: t1 <= ops[m].now <= t2
    ensures Accepted(c, ops, i, j, k) as real <= c.burst(k) as real + (t2 - t1) * c.rate(k)
  {
    LeakBound(c, ops, i, j, k, t1, t2);
    LeakIs(c.rate(k), t2 - t1);
  }
}
