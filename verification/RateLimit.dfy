/** The inbound token bucket: `cap` tokens per second, at most `cap` in store, one per PUBLISH or
    SUBSCRIBE.  Time is a real number of seconds read from a monotone clock. */
module RateLimit {
  import opened Prelude

  /** rateTokens and rateLast; `last` is None while the limit has never been on. */
  datatype Bucket = Bucket(tokens: int, last: Option<real>)

  /** cap * dt, the tokens that dt seconds are worth, by repeated addition. */
  function Worth(cap: nat, dt: real): real { if cap == 0 then 0.0 else Worth(cap - 1, dt) + dt }

  lemma {:induction false} WorthIsProduct(cap: nat, dt: real)
    ensures Worth(cap, dt) == dt * cap as real
  {
    if cap > 0 {
      WorthIsProduct(cap - 1, dt);
      assert dt * cap as real == dt * (cap - 1) as real + dt;
    }
  }

  lemma {:induction false} WorthAdds(cap: nat, x: real, y: real)
    ensures Worth(cap, x + y) == Worth(cap, x) + Worth(cap, y)
  {
    if cap > 0 { WorthAdds(cap - 1, x, y); }
  }

  lemma {:induction false} WorthGrows(cap: nat, x: real, y: real)
    requires x <= y
    ensures Worth(cap, x) <= Worth(cap, y)
  {
    if cap > 0 { WorthGrows(cap - 1, x, y); }
  }

  lemma {:induction false} WorthPositive(cap: nat, x: real)
    requires x >= 0.0
    ensures Worth(cap, x) >= 0.0
  {
    if cap > 0 { WorthPositive(cap - 1, x); }
  }

  function Refill(b: Bucket, cap: int, now: real): Bucket
    requires cap > 0
  {
    match b.last
    case None => Bucket(cap, Some(now))
    case Some(last) =>
      var add := Worth(cap, now - last).Floor;
      if add <= 0 then b
      else Bucket(if b.tokens + add > cap then cap else b.tokens + add, Some(now))
  }

  /** One packet: the bucket after it, and whether it is admitted. */
  function Consume(b: Bucket, cap: int, now: real): (Bucket, bool) {
    if cap <= 0 then (b, true)
    else
      var full := Refill(b, cap, now);
      if full.tokens <= 0 then (full, false) else (full.(tokens := full.tokens - 1), true)
  }

  function Fresh(cap: int, now: real): Bucket {
    if cap > 0 then Bucket(cap, Some(now)) else Bucket(0, None)
  }

  /** int(elapsed.Seconds() * float64(cap)), for a non-negative product. */
  method WholeTokens(cap: nat, elapsed: real) returns (add: int)
    ensures add == Worth(cap, elapsed).Floor
  {
    WorthIsProduct(cap, elapsed);
    add := (elapsed * cap as real).Floor;
  }

  class Conn {
    const cap: int
    var rateTokens: int
    var rateLast: Option<real>

    ghost function Contents(): Bucket reads this { Bucket(rateTokens, rateLast) }

    /** newConn. */
    constructor (limit: int, now: real)
      ensures cap == limit && Contents() == Fresh(limit, now)
    {
      cap, rateTokens, rateLast := limit, 0, None;
      if limit > 0 {
        rateTokens, rateLast := limit, Some(now);
      }
    }

    /** tryConsumeRateToken. */
    method TryConsume(now: real) returns (ok: bool)
      modifies this
      ensures ok == Consume(old(Contents()), cap, now).1
      ensures Contents() == Consume(old(Contents()), cap, now).0
    {
      if cap <= 0 { return true; }
      if rateLast.Some? {
        var add := WholeTokens(cap, now - rateLast.value);
        if add > 0 {
          rateTokens := rateTokens + add;
          if rateTokens > cap { rateTokens := cap; }
          rateLast := Some(now);
        }
      } else {
        rateLast, rateTokens := Some(now), cap;
      }
      if rateTokens <= 0 { return false; }
      rateTokens := rateTokens - 1;
      return true;
    }

    /** A whole sequence of packets. */
    method Serve(times: seq<real>) returns (admitted: nat)
      modifies this
      ensures admitted == Admitted(old(Contents()), cap, times)
      ensures Contents() == After(old(Contents()), cap, times)
    {
      admitted := 0;
      for i := 0 to |times|
        invariant Admitted(old(Contents()), cap, times) == admitted + Admitted(Contents(), cap, times[i..])
        invariant After(old(Contents()), cap, times) == After(Contents(), cap, times[i..])
      {
        assert times[i..][0] == times[i] && times[i..][1..] == times[i + 1..];
        var ok := TryConsume(times[i]);
        if ok { admitted := admitted + 1; }
      }
    }
  }

  function Admitted(b: Bucket, cap: int, times: seq<real>): nat
    decreases |times|
  {
    if times == [] then 0
    else
      var (b', ok) := Consume(b, cap, times[0]);
      (if ok then 1 else 0) + Admitted(b', cap, times[1..])
  }

  function After(b: Bucket, cap: int, times: seq<real>): Bucket
    decreases |times|
  {
    if times == [] then b else After(Consume(b, cap, times[0]).0, cap, times[1..])
  }

  // ---------- at most cap + ceil(cap * T) in any window of T seconds ----------

  function Ceil(x: real): int { -((-x).Floor) }

  /** The clock only moves forward, from `start` on and up to `end`. */
  predicate Monotone(start: real, times: seq<real>, end: real)
    decreases |times|
  {
    if times == [] then start <= end else start <= times[0] && Monotone(times[0], times[1..], end)
  }

  /** A bucket the limiter can be in at time `now`. */
  predicate Sane(b: Bucket, cap: int, now: real) {
    0 <= b.tokens <= cap && b.last.Some? && b.last.value <= now
  }

  /** Tokens in store plus the refill still to come until `end`. */
  ghost function Credit(b: Bucket, cap: nat, end: real): real
    requires b.last.Some?
  {
    b.tokens as real + Worth(cap, end - b.last.value)
  }

  /** One packet: the credit never grows, and an admission costs one unit of it. */
  lemma ConsumePays(b: Bucket, cap: int, now: real, end: real)
    requires cap > 0 && Sane(b, cap, now)
    ensures var (b', ok) := Consume(b, cap, now);
      && Sane(b', cap, now)
      && Credit(b', cap, end) + (if ok then 1.0 else 0.0) <= Credit(b, cap, end)
      && b'.tokens + (if ok then 1 else 0) <= cap
      && Worth(cap, now - b'.last.value) < 1.0
  {
    var gap := now - b.last.value;
    WorthPositive(cap, gap);
    WorthAdds(cap, gap, end - now);
    assert end - b.last.value == gap + (end - now);
    WorthPositive(cap, 0.0);
    WorthAdds(cap, 0.0, 0.0);
  }

  lemma {:induction false} CreditBounds(b: Bucket, cap: int, now: real, times: seq<real>, end: real)
    requires cap > 0 && Sane(b, cap, now) && Monotone(now, times, end)
    ensures Admitted(b, cap, times) as real <= Credit(b, cap, end)
    decreases |times|
  {
    if times != [] {
      ConsumePays(b, cap, times[0], end);
      CreditBounds(Consume(b, cap, times[0]).0, cap, times[0], times[1..], end);
    } else {
      WorthPositive(cap, end - b.last.value);
    }
  }

  lemma {:induction false} MonotoneEnds(start: real, times: seq<real>, end: real)
    requires Monotone(start, times, end)
    ensures start <= end
    decreases |times|
  {
    if times != [] { MonotoneEnds(times[0], times[1..], end); }
  }

  /** n is an integer below cap + 1 + width. */
  lemma CeilBound(n: int, cap: int, width: real)
    requires n as real < cap as real + 1.0 + width
    ensures n <= cap + Ceil(width)
  {
    assert width <= Ceil(width) as real;
  }

  /** After its first packet the window's credit is below cap + 1 + width. */
  lemma CreditInWindow(b: Bucket, cap: int, start: real, now: real, end: real, used: int)
    requires cap > 0 && b.last.Some? && start <= now <= end
    requires b.tokens + used <= cap && Worth(cap, now - b.last.value) < 1.0
    ensures Credit(b, cap, end) + used as real < cap as real + 1.0 + Worth(cap, end - start)
  {
    WorthAdds(cap, now - b.last.value, end - now);
    assert end - b.last.value == (now - b.last.value) + (end - now);
    WorthGrows(cap, end - now, end - start);
  }

  lemma FirstPacket(b: Bucket, cap: int, now: real, times: seq<real>, end: real)
    requires cap > 0 && Sane(b, cap, now) && Monotone(now, times, end) && times != [] && times[0] == now
    ensures var (b', ok) := Consume(b, cap, now);
      && Sane(b', cap, now)
      && Admitted(b, cap, times) as real <= Credit(b', cap, end) + (if ok then 1 else 0) as real
      && b'.tokens + (if ok then 1 else 0) <= cap
      && Worth(cap, now - b'.last.value) < 1.0
  {
    ConsumePays(b, cap, now, end);
    CreditBounds(Consume(b, cap, now).0, cap, now, times[1..], end);
  }

  lemma WindowCredit(b: Bucket, cap: int, start: real, times: seq<real>, end: real)
    requires cap > 0 && Sane(b, cap, start) && Monotone(start, times, end)
    ensures Admitted(b, cap, times) as real < cap as real + 1.0 + Worth(cap, end - start)
  {
    MonotoneEnds(start, times, end);
    if times == [] {
      WorthPositive(cap, end - start);
      assert Admitted(b, cap, times) == 0;
    } else {
      var now := times[0];
      MonotoneEnds(now, times[1..], end);
      FirstPacket(b, cap, now, times, end);
      var (b', ok) := Consume(b, cap, now);
      CreditInWindow(b', cap, start, now, end, if ok then 1 else 0);
    }
  }

  lemma WindowBound(b: Bucket, cap: int, start: real, times: seq<real>, end: real)
    requires cap > 0 && Sane(b, cap, start) && Monotone(start, times, end)
    ensures Admitted(b, cap, times) <= cap + Ceil(Worth(cap, end - start))
  {
    WindowCredit(b, cap, start, times, end);
    CeilBound(Admitted(b, cap, times), cap, Worth(cap, end - start));
  }

  lemma {:induction false} AfterSane(b: Bucket, cap: int, start: real, times: seq<real>, end: real)
    requires cap > 0 && Sane(b, cap, start) && Monotone(start, times, end)
    ensures Sane(After(b, cap, times), cap, end)
    decreases |times|
  {
    if times != [] {
      ConsumePays(b, cap, times[0], end);
      AfterSane(Consume(b, cap, times[0]).0, cap, times[0], times[1..], end);
    }
  }

  lemma {:induction false} AdmittedSplit(b: Bucket, cap: int, before: seq<real>, inside: seq<real>)
    ensures Admitted(b, cap, before + inside) == Admitted(b, cap, before) + Admitted(After(b, cap, before), cap, inside)
    decreases |before|
  {
    if before == [] {
      assert before + inside == inside;
    } else {
      assert (before + inside)[1..] == before[1..] + inside;
      AdmittedSplit(Consume(b, cap, before[0]).0, cap, before[1..], inside);
    }
  }

  /** The bound: whatever a connection sent before, of the packets of any window of T = end - start
      seconds at most cap + ceil(cap * T) are admitted (Worth(cap, T) is cap * T). */
  lemma RateBound(cap: int, birth: real, before: seq<real>, start: real, inside: seq<real>, end: real)
    requires cap > 0 && Monotone(birth, before, start) && Monotone(start, inside, end)
    ensures Admitted(Fresh(cap, birth), cap, before + inside) - Admitted(Fresh(cap, birth), cap, before)
         <= cap + Ceil(Worth(cap, end - start))
  {
    var b := Fresh(cap, birth);
    AdmittedSplit(b, cap, before, inside);
    AfterSane(b, cap, birth, before, start);
    WindowBound(After(b, cap, before), cap, start, inside, end);
  }

  // ---------- what a pause is worth ----------

  function Repeat(now: real, n: nat): seq<real> { if n == 0 then [] else [now] + Repeat(now, n - 1) }

  /** The tokens in store after a refill at `now`. */
  function Stock(b: Bucket, cap: nat, now: real): int
    requires b.last.Some?
  {
    var whole := b.tokens + Worth(cap, now - b.last.value).Floor;
    if whole > cap then cap else whole
  }

  lemma {:induction false} WorthZero(cap: nat)
    ensures Worth(cap, 0.0) == 0.0
  {
    if cap > 0 { WorthZero(cap - 1); }
  }

  /** One packet takes one token out of the stock, and no time passes. */
  lemma BurstStep(b: Bucket, cap: int, now: real)
    requires cap > 0 && Sane(b, cap, now)
    ensures var (b', ok) := Consume(b, cap, now);
      && Sane(b', cap, now)
      && ok == (Stock(b, cap, now) > 0)
      && Stock(b', cap, now) == Stock(b, cap, now) - if ok then 1 else 0
  {
    ConsumePays(b, cap, now, now);
    WorthPositive(cap, now - b.last.value);
    WorthZero(cap);
  }

  /** A burst gets exactly what is in stock: the tokens left over plus the whole tokens the pause was
      worth, up to cap. */
  lemma {:induction false} BurstExactly(b: Bucket, cap: int, now: real, n: nat)
    requires cap > 0 && Sane(b, cap, now)
    ensures Stock(b, cap, now) >= 0
    ensures Admitted(b, cap, Repeat(now, n)) == if n < Stock(b, cap, now) then n else Stock(b, cap, now)
    decreases n
  {
    WorthPositive(cap, now - b.last.value);
    if n > 0 {
      BurstStep(b, cap, now);
      BurstExactly(Consume(b, cap, now).0, cap, now, n - 1);
      assert Repeat(now, n)[1..] == Repeat(now, n - 1);
    }
  }

  // ---------- nobody within the rate is refused ----------

  /** A packet is refused exactly when the store is empty and less than one token's worth of time
      has passed since the last refill; a refused packet leaves the bucket, and so the time of the
      last refill, as it was. */
  lemma RefusedExactly(b: Bucket, cap: int, now: real)
    requires cap > 0 && Sane(b, cap, now)
    ensures !Consume(b, cap, now).1 <==> b.tokens == 0 && Worth(cap, now - b.last.value) < 1.0
    ensures !Consume(b, cap, now).1 ==> Consume(b, cap, now).0 == b
  {
    WorthPositive(cap, now - b.last.value);
  }

  /** Hammering does not starve: however densely a client sends, once a packet comes at least 1/cap
      seconds after the last refill, that packet or one before it was admitted. */
  lemma {:induction false} NoStarvation(b: Bucket, cap: int, now: real, times: seq<real>)
    requires cap > 0 && Sane(b, cap, now) && times != [] && Monotone(now, times, times[|times| - 1])
    requires Worth(cap, times[|times| - 1] - b.last.value) >= 1.0
    ensures Admitted(b, cap, times) >= 1
    decreases |times|
  {
    RefusedExactly(b, cap, times[0]);
    if !Consume(b, cap, times[0]).1 {
      NoStarvation(b, cap, times[0], times[1..]);
    }
  }

  predicate Spaced(times: seq<real>, gap: real) {
    forall i :: 0 < i < |times| ==> times[i] >= times[i - 1] + gap
  }

  /** One packet of a spaced sender. */
  lemma SpacedStep(b: Bucket, cap: int, prev: real, now: real, gap: real)
    requires cap > 0 && Sane(b, cap, prev) && Worth(cap, gap) >= 1.0 && gap >= 0.0
    requires now >= if b.tokens == 0 then prev + gap else prev
    ensures Consume(b, cap, now).1 && Sane(Consume(b, cap, now).0, cap, now)
  {
    if b.tokens == 0 { WorthGrows(cap, gap, now - b.last.value); }
    RefusedExactly(b, cap, now);
    ConsumePays(b, cap, now, now);
  }

  lemma {:induction false} SpacedFrom(b: Bucket, cap: int, prev: real, times: seq<real>, gap: real)
    requires cap > 0 && Sane(b, cap, prev) && Worth(cap, gap) >= 1.0 && gap >= 0.0 && Spaced(times, gap)
    requires times != [] ==> times[0] >= if b.tokens == 0 then prev + gap else prev
    ensures Admitted(b, cap, times) == |times|
    decreases |times|
  {
    if times != [] {
      var now, rest := times[0], times[1..];
      SpacedStep(b, cap, prev, now, gap);
      assert Spaced(rest, gap) by {
        assert forall i :: 0 < i < |rest| ==> rest[i] == times[i + 1] && rest[i - 1] == times[i];
      }
      if rest != [] { assert rest[0] == times[1] && times[1] >= times[0] + gap; }
      SpacedFrom(Consume(b, cap, now).0, cap, now, rest, gap);
    }
  }

  /** A sender whose packets are at least 1/cap seconds apart is never refused. */
  lemma NeverRefused(cap: int, birth: real, times: seq<real>, gap: real)
    requires cap > 0 && Worth(cap, gap) >= 1.0 && gap >= 0.0 && Spaced(times, gap)
    requires times != [] ==> birth <= times[0]
    ensures Admitted(Fresh(cap, birth), cap, times) == |times|
  {
    SpacedFrom(Fresh(cap, birth), cap, birth, times, gap);
  }
}
