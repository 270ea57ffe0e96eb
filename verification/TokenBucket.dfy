/** The token bucket behind every rate limit of the server (one global, three per source). */
module TokenBucket {

  datatype Bucket = Bucket(tokens: real, updated: real)

  datatype TakeResult = TakeResult(ok: bool, bucket: Bucket)

  function Min(a: real, b: real): (m: real)
    ensures m <= a && m <= b && (m == a || m == b)
  {
    if a < b then a else b
  }

  /** What the bucket holds at time `now`: refilled at `rate`, capped at `burst`. */
  function Level(b: Bucket, rate: real, burst: real, now: real): real {
    Min(burst, b.tokens + (now - b.updated) * rate)
  }

  /** One attempt to take a token at `now`; even a failed attempt banks the refill. */
  function Take(b: Bucket, rate: real, burst: real, now: real): TakeResult {
    var level := Level(b, rate, burst, now);
    if level < 1.0 then TakeResult(false, Bucket(level, now)) else TakeResult(true, Bucket(level - 1.0, now))
  }

  method TakeToken(b: Bucket, rate: real, burst: real, now: real) returns (ok: bool, after: Bucket)
    ensures TakeResult(ok, after) == Take(b, rate, burst, now)
  {
    after := Bucket(Level(b, rate, burst, now), now);
    if after.tokens < 1.0 {
      return false, after;
    }
    after := after.(tokens := after.tokens - 1.0);
    return true, after;
  }

  ghost predicate Healthy(b: Bucket, burst: real, now: real) {
    0.0 <= b.tokens <= burst && b.updated <= now
  }

  /** The refill is a flow: letting time pass in two steps or in one gives the same level. */
  lemma LevelFlows(b: Bucket, rate: real, burst: real, t: real, now: real)
    requires t <= now && 0.0 <= rate
    ensures Level(b, rate, burst, now) == Min(burst, Level(b, rate, burst, t) + (now - t) * rate)
  {
    var atT := b.tokens + (t - b.updated) * rate;
    var more := (now - t) * rate;
    assert b.tokens + (now - b.updated) * rate == atT + more;
    assert 0.0 <= more;
  }

  lemma LevelInRange(b: Bucket, rate: real, burst: real, now: real)
    requires 0.0 <= rate && Healthy(b, burst, now)
    ensures b.tokens <= Level(b, rate, burst, now) <= burst
  {
    var elapsed := now - b.updated;
    assert 0.0 <= elapsed * rate;
  }

  /** Every bucket stays between empty and `burst`, and no attempt creates tokens. */
  lemma TakeSpends(b: Bucket, rate: real, burst: real, t: real, now: real)
    requires 0.0 <= rate && 0.0 <= burst && t <= now && Healthy(b, burst, t)
    ensures var r := Take(b, rate, burst, now);
            Healthy(r.bucket, burst, now) &&
            (if r.ok then 1.0 else 0.0) + Level(r.bucket, rate, burst, now) == Level(b, rate, burst, now)
            <= Level(b, rate, burst, t) + rate * (now - t)
  {
    LevelFlows(b, rate, burst, t, now);
    LevelInRange(b, rate, burst, now);
    var r := Take(b, rate, burst, now);
    assert (now - r.bucket.updated) * rate == 0.0;
  }

  /** A bucket left alone for as long as it takes to fill is full. */
  lemma IdleBucketIsFull(b: Bucket, rate: real, burst: real, idle: real, now: real)
    requires Healthy(b, burst, now - idle) && 0.0 < rate && burst <= rate * idle
    ensures Level(b, rate, burst, now) == burst
  {
    hide Level;
    LevelIs(b, rate, burst, now);
    Product(now - idle - b.updated, rate);
    assert (now - b.updated) * rate == (now - idle - b.updated) * rate + rate * idle;
  }

  lemma LevelIs(b: Bucket, rate: real, burst: real, now: real)
    ensures Level(b, rate, burst, now) == Min(burst, b.tokens + (now - b.updated) * rate)
  {
  }

  lemma Product(a: real, b: real)
    requires 0.0 <= a && 0.0 <= b
    ensures 0.0 <= a * b
  {
  }

  lemma FullBucket(rate: real, burst: real, now: real)
    ensures Level(Bucket(burst, now), rate, burst, now) == burst
  {
    assert (now - now) * rate == 0.0;
  }

  /** A bucket left alone does not lose tokens. */
  lemma Waits(b: Bucket, rate: real, burst: real, from: real, now: real)
    requires 0.0 < rate && Healthy(b, burst, from) && from <= now
    ensures Level(b, rate, burst, from) <= Level(b, rate, burst, now)
  {
    hide Level;
    LevelFlows(b, rate, burst, from, now);
    LevelInRange(b, rate, burst, from);
    Product(now - from, rate);
  }

  lemma LevelNow(b: Bucket, rate: real, burst: real, now: real)
    ensures b.updated == now ==> Level(b, rate, burst, now) == Min(burst, b.tokens)
  {
    assert b.updated == now ==> (now - b.updated) * rate == 0.0;
  }

  lemma TakeNow(b: Bucket, rate: real, burst: real, now: real)
    ensures var r := Take(b, rate, burst, now);
            && r.ok == (Level(b, rate, burst, now) >= 1.0) && r.bucket.updated == now
            && r.bucket.tokens == Level(b, rate, burst, now) - (if r.ok then 1.0 else 0.0)
            && Level(r.bucket, rate, burst, now) == r.bucket.tokens
  {
    hide Level;
    LevelNow(Take(b, rate, burst, now).bucket, rate, burst, now);
    LevelCapped(b, rate, burst, now);
  }

  lemma LevelCapped(b: Bucket, rate: real, burst: real, now: real)
    ensures Level(b, rate, burst, now) <= burst
  {
  }
}
