/** The token bucket of internal/lua/token_bucket.lua over exact reals: lazy refill,
    retry-after and the expiry of idle buckets. */
module TokenBucket {
  import opened Common

  function Min(x: real, y: real): real { if x <= y then x else y }

  function Max(x: real, y: real): real { if x <= y then y else x }

  function Ceil(x: real): int { -((-x).Floor) }

  /** The time from one reading to a later one; 0 when the clock ran backwards. */
  function Elapsed(since: real, now: real): real { Max(0.0, now - since) }

  // ---- the script

  /** `refill(d)` is what accrues in `d` seconds: `d` times the refill rate. */
  datatype Limits = Limits(capacity: real, refill: real -> real)

  predicate RefillsAt(l: Limits, rate: real, d: real) { l.refill(d) == d * rate }

  ghost predicate Rated(l: Limits, rate: real) {
    l.capacity >= 0.0 && rate > 0.0 && forall d :: RefillsAt(l, rate, d)
  }

  /** The stored hash: `tokens` and `last_updated`. */
  datatype Hash = Hash(tokens: real, last: real)

  /** The tokens that a call at `now` finds; a clock that ran backwards adds none. */
  function Refilled(l: Limits, h: Option<Hash>, now: real): real {
    match h
    case None => l.capacity
    case Some(Hash(tokens, last)) => Min(l.capacity, tokens + l.refill(Elapsed(last, now)))
  }

  predicate Allows(l: Limits, h: Option<Hash>, now: real, requested: real) {
    Refilled(l, h, now) >= requested
  }

  function After(l: Limits, h: Option<Hash>, now: real, requested: real): Hash {
    var tokens := Refilled(l, h, now);
    Hash(if Allows(l, h, now, requested) then tokens - requested else tokens, now)
  }

  function RetryAfter(l: Limits, rate: real, h: Option<Hash>, now: real, requested: real): int
    requires rate > 0.0
  {
    if Allows(l, h, now, requested) then 0 else Ceil((requested - Refilled(l, h, now)) / rate)
  }

  function TTL(capacity: real, rate: real): int
    requires rate > 0.0
  {
    Ceil(capacity / rate) * 2
  }

  // ---- what refilling at a rate means for the proofs

  /** Refilling is additive under splitting of intervals. */
  predicate Adds(l: Limits, d: real, e: real) { l.refill(d) + l.refill(e) == l.refill(d + e) }

  predicate Grows(l: Limits, d: real, e: real) { d <= e ==> l.refill(d) <= l.refill(e) }

  ghost predicate Accrues(l: Limits) {
    && l.capacity >= 0.0 && l.refill(0.0) == 0.0
    && (forall d, e :: Grows(l, d, e))
    && (forall d, e :: Adds(l, d, e))
  }

  lemma MulMonotone(a: real, b: real, r: real)
    requires a <= b && r > 0.0
    ensures a * r <= b * r
  {
    assert (b - a) * r >= 0.0;
  }

  lemma RatedAccrues(l: Limits, rate: real)
    requires Rated(l, rate)
    ensures Accrues(l)
  {
    assert RefillsAt(l, rate, 0.0);
    forall d, e
      ensures Grows(l, d, e)
    {
      assert RefillsAt(l, rate, d) && RefillsAt(l, rate, e);
      if d <= e { MulMonotone(d, e, rate); }
    }
    forall d, e
      ensures Adds(l, d, e)
    {
      assert RefillsAt(l, rate, d) && RefillsAt(l, rate, e) && RefillsAt(l, rate, d + e);
    }
  }

  lemma RefillIs(l: Limits, rate: real, d: real)
    requires Rated(l, rate)
    ensures l.refill(d) == rate * d
  {
    assert RefillsAt(l, rate, d);
  }

  lemma CeilIs(x: real)
    ensures x <= Ceil(x) as real < x + 1.0
  {
    var f := (-x).Floor;
    assert f as real <= -x < f as real + 1.0;
  }

  /** A delay refills what is needed exactly when it is at least need / rate. */
  lemma DelayRefills(l: Limits, rate: real, need: real, delay: real)
    requires Rated(l, rate)
    ensures l.refill(delay) >= need <==> delay >= need / rate
  {
    var q := need / rate;
    assert RefillsAt(l, rate, delay);
    assert q * rate == need;
    if delay >= q {
      MulMonotone(q, delay, rate);
    } else {
      assert (q - delay) * rate > 0.0;
      assert q * rate == delay * rate + (q - delay) * rate;
    }
  }

  // ---- runs

  datatype CallAt = CallAt(now: real, requested: real)

  function RunBucket(l: Limits, h: Option<Hash>, calls: seq<CallAt>): Option<Hash> {
    if calls == [] then h
    else
      var c := calls[|calls| - 1];
      Some(After(l, RunBucket(l, h, calls[..|calls| - 1]), c.now, c.requested))
  }

  function Paid(l: Limits, h: Option<Hash>, c: CallAt): real {
    if Allows(l, h, c.now, c.requested) then c.requested else 0.0
  }

  /** The tokens handed out by a run. */
  function Granted(l: Limits, h: Option<Hash>, calls: seq<CallAt>): real {
    if calls == [] then 0.0
    else
      var before := calls[..|calls| - 1];
      Granted(l, h, before) + Paid(l, RunBucket(l, h, before), calls[|calls| - 1])
  }

  /** How far a clock that may also run backwards has moved forward in all; `start` is the
      reading before the first call. */
  function Forward(start: real, calls: seq<CallAt>): real {
    if calls == [] then 0.0
    else
      var n := |calls| - 1;
      Forward(start, calls[..n]) + Elapsed(if n == 0 then start else calls[n - 1].now, calls[n].now)
  }

  predicate Within(l: Limits, h: Option<Hash>) {
    h.Some? ==> 0.0 <= h.value.tokens <= l.capacity
  }

  function Level(l: Limits, h: Option<Hash>): real {
    match h case None => l.capacity case Some(Hash(tokens, _)) => tokens
  }

  // ---- the rate bound, for any clock

  /** One call hands out and keeps no more than was there and was refilled since. */
  lemma OneCall(l: Limits, h: Option<Hash>, c: CallAt, last: real)
    requires Accrues(l) && Within(l, h) && c.requested >= 0.0 && (h.Some? ==> h.value.last == last)
    ensures var h' := After(l, h, c.now, c.requested);
      && Within(l, Some(h')) && h'.last == c.now
      && Paid(l, h, c) + h'.tokens <= Level(l, h) + l.refill(Elapsed(last, c.now))
  {
    assert Grows(l, 0.0, Elapsed(last, c.now));
  }

  /** Over any calls with any clock readings, even backwards, the stored tokens stay within
      [0, capacity], and what was granted plus what is left is at most the initial level
      plus what the forward movements of the clock refill. */
  lemma {:induction false} GrantedBound(l: Limits, h: Option<Hash>, start: real, calls: seq<CallAt>)
    requires Accrues(l) && Within(l, h)
    requires match h case None => calls != [] ==> start == calls[0].now case Some(Hash(_, last)) => start == last
    requires forall k | 0 <= k < |calls| :: calls[k].requested >= 0.0
    ensures Within(l, RunBucket(l, h, calls))
    ensures calls != [] ==> RunBucket(l, h, calls).Some? && RunBucket(l, h, calls).value.last == calls[|calls| - 1].now
    ensures Granted(l, h, calls) + Level(l, RunBucket(l, h, calls)) <= Level(l, h) + l.refill(Forward(start, calls))
  {
    if calls != [] {
      var n := |calls| - 1;
      var before, c := calls[..n], calls[n];
      GrantedBound(l, h, start, before);
      var last := if n == 0 then start else calls[n - 1].now;
      assert n > 0 ==> before[n - 1] == calls[n - 1];
      var g := RunBucket(l, h, before);
      OneCall(l, g, c, last);
      RefillSplits(l, Forward(start, before), Elapsed(last, c.now), Forward(start, calls));
    }
  }

  lemma RefillSplits(l: Limits, d: real, e: real, both: real)
    requires Accrues(l) && both == d + e
    ensures l.refill(d) + l.refill(e) == l.refill(both)
  {
    assert Adds(l, d, e);
  }

  // ---- nothing is lost

  /** One call loses no token, and with room for the refill it wins all of it. */
  lemma OneCallKeeps(l: Limits, h: Option<Hash>, c: CallAt, last: real)
    requires Accrues(l) && Within(l, h) && (h.Some? ==> h.value.last == last)
    ensures var h' := After(l, h, c.now, c.requested);
      && Paid(l, h, c) + h'.tokens >= Level(l, h)
      && (Level(l, h) + l.refill(Elapsed(last, c.now)) <= l.capacity ==>
            Paid(l, h, c) + h'.tokens == Level(l, h) + l.refill(Elapsed(last, c.now)))
  {
    assert Grows(l, 0.0, Elapsed(last, c.now));
  }

  /** Over any calls with any clock readings, what was granted plus what is left is at least the
      initial level. */
  lemma {:induction false} NothingIsLost(l: Limits, h: Option<Hash>, calls: seq<CallAt>)
    requires Accrues(l) && Within(l, h) && forall k | 0 <= k < |calls| :: calls[k].requested >= 0.0
    ensures Within(l, RunBucket(l, h, calls))
    ensures Granted(l, h, calls) + Level(l, RunBucket(l, h, calls)) >= Level(l, h)
  {
    if calls != [] {
      var n := |calls| - 1;
      var g := RunBucket(l, h, calls[..n]);
      NothingIsLost(l, h, calls[..n]);
      var last := if g.None? then calls[n].now else g.value.last;
      OneCall(l, g, calls[n], last);
      OneCallKeeps(l, g, calls[n], last);
    }
  }

  lemma ForwardGrows(start: real, calls: seq<CallAt>)
    requires calls != []
    ensures 0.0 <= Elapsed(if |calls| == 1 then start else calls[|calls| - 2].now, calls[|calls| - 1].now)
    ensures Forward(start, calls[..|calls| - 1]) <= Forward(start, calls)
  {
  }

  /** As long as the initial level and all of the refill fit the capacity, `GrantedBound` is an
      equality: granted plus left is the initial level plus the refill. While the clock does not
      move forward that is so for every bucket. */
  lemma {:induction false} GrantedExactly(l: Limits, h: Option<Hash>, start: real, calls: seq<CallAt>)
    requires Accrues(l) && Within(l, h)
    requires match h case None => calls != [] ==> start == calls[0].now case Some(Hash(_, last)) => start == last
    requires forall k | 0 <= k < |calls| :: calls[k].requested >= 0.0
    requires Level(l, h) + l.refill(Forward(start, calls)) <= l.capacity
    ensures Granted(l, h, calls) + Level(l, RunBucket(l, h, calls)) == Level(l, h) + l.refill(Forward(start, calls))
  {
    if calls != [] {
      var n := |calls| - 1;
      var before, c := calls[..n], calls[n];
      var last := if n == 0 then start else calls[n - 1].now;
      ForwardGrows(start, calls);
      assert Grows(l, Forward(start, before), Forward(start, calls));
      assert n > 0 ==> before[0] == calls[0] && before[n - 1] == calls[n - 1];
      GrantedExactly(l, h, start, before);
      GrantedBound(l, h, start, before);
      RefillSplits(l, Forward(start, before), Elapsed(last, c.now), Forward(start, calls));
      PaidIsNonNegative(l, h, before);
      OneCallKeeps(l, RunBucket(l, h, before), c, last);
    }
  }

  lemma {:induction false} PaidIsNonNegative(l: Limits, h: Option<Hash>, calls: seq<CallAt>)
    requires forall k | 0 <= k < |calls| :: calls[k].requested >= 0.0
    ensures Granted(l, h, calls) >= 0.0
  {
    if calls != [] { PaidIsNonNegative(l, h, calls[..|calls| - 1]); }
  }

  function Requested(calls: seq<CallAt>): real {
    if calls == [] then 0.0 else Requested(calls[..|calls| - 1]) + calls[|calls| - 1].requested
  }

  /** Requests that together fit what the bucket holds are all allowed, at any times. */
  lemma {:induction false} FittingRequestsAreAllowed(l: Limits, h: Option<Hash>, calls: seq<CallAt>)
    requires Accrues(l) && Within(l, h) && forall k | 0 <= k < |calls| :: calls[k].requested >= 0.0
    requires Requested(calls) <= Level(l, h)
    ensures Granted(l, h, calls) == Requested(calls)
    ensures forall k | 0 <= k < |calls| :: Allows(l, RunBucket(l, h, calls[..k]), calls[k].now, calls[k].requested)
  {
    if calls != [] {
      var n := |calls| - 1;
      var before, c := calls[..n], calls[n];
      FittingRequestsAreAllowed(l, h, before);
      NothingIsLost(l, h, before);
      var g := RunBucket(l, h, before);
      assert Grows(l, 0.0, Elapsed(if g.None? then 0.0 else g.value.last, c.now));
      forall k | 0 <= k < |calls|
        ensures Allows(l, RunBucket(l, h, calls[..k]), calls[k].now, calls[k].requested)
      {
        assert k < n ==> before[..k] == calls[..k] && before[k] == calls[k];
      }
    }
  }

  lemma FullBound(l: Limits, calls: seq<CallAt>, forward: real, granted: real)
    requires Accrues(l) && calls != [] && forall k | 0 <= k < |calls| :: calls[k].requested >= 0.0
    requires forward == Forward(calls[0].now, calls) && granted == Granted(l, None, calls)
    ensures granted <= l.capacity + l.refill(forward)
    ensures Within(l, RunBucket(l, None, calls))
  {
    GrantedBound(l, None, calls[0].now, calls);
  }

  /** The rate bound: starting full, a run grants at most the capacity plus the refill over
      the forward movements of the clock. */
  lemma RateBound(l: Limits, rate: real, calls: seq<CallAt>, forward: real, granted: real)
    requires Rated(l, rate) && calls != [] && forall k | 0 <= k < |calls| :: calls[k].requested >= 0.0
    requires forward == Forward(calls[0].now, calls) && granted == Granted(l, None, calls)
    ensures granted <= l.capacity + rate * forward
    ensures Within(l, RunBucket(l, None, calls))
  {
    RatedAccrues(l, rate);
    FullBound(l, calls, forward, granted);
    RefillIs(l, rate, forward);
  }

  predicate Monotone(calls: seq<CallAt>) {
    forall i, j | 0 <= i <= j < |calls| :: calls[i].now <= calls[j].now
  }

  lemma {:induction false} ForwardOfMonotone(start: real, calls: seq<CallAt>)
    requires Monotone(calls) && (calls != [] ==> start == calls[0].now)
    ensures Forward(start, calls) == if calls == [] then 0.0 else calls[|calls| - 1].now - start
  {
    if calls != [] {
      ForwardOfMonotone(start, calls[..|calls| - 1]);
    }
  }

  /** With a clock that does not run backwards, that is the refill over the elapsed time. */
  lemma MonotoneRateBound(l: Limits, rate: real, calls: seq<CallAt>, elapsed: real, granted: real)
    requires Rated(l, rate) && calls != [] && Monotone(calls) && granted == Granted(l, None, calls)
    requires elapsed == calls[|calls| - 1].now - calls[0].now
    requires forall k | 0 <= k < |calls| :: calls[k].requested >= 0.0
    ensures granted <= l.capacity + rate * elapsed
  {
    ForwardOfMonotone(calls[0].now, calls);
    RateBound(l, rate, calls, elapsed, granted);
  }

  // ---- retry-after

  /** Every call of the run is denied. */
  predicate AllDenied(l: Limits, h: Option<Hash>, calls: seq<CallAt>) {
    forall k | 0 <= k < |calls| :: !Allows(l, RunBucket(l, h, calls[..k]), calls[k].now, calls[k].requested)
  }

  lemma DeniedPrefix(l: Limits, h: Option<Hash>, calls: seq<CallAt>)
    requires AllDenied(l, h, calls) && calls != []
    ensures AllDenied(l, h, calls[..|calls| - 1])
  {
    var before := calls[..|calls| - 1];
    forall k | 0 <= k < |before|
      ensures !Allows(l, RunBucket(l, h, before[..k]), before[k].now, before[k].requested)
    {
      assert before[..k] == calls[..k] && before[k] == calls[k];
    }
  }

  /** Refilling in pieces, with any clock, is never less than refilling at once. */
  lemma RefillPieces(l: Limits, tokens: real, t: real, h: Hash, now: real)
    requires Accrues(l) && 0.0 <= h.tokens <= l.capacity
    requires h.tokens >= Min(l.capacity, tokens + l.refill(Elapsed(t, h.last)))
    ensures Refilled(l, Some(h), now) >= Min(l.capacity, tokens + l.refill(Elapsed(t, now)))
    ensures 0.0 <= Refilled(l, Some(h), now) <= l.capacity
  {
    var a, b, d := Elapsed(t, h.last), Elapsed(h.last, now), Elapsed(t, now);
    assert Adds(l, a, b) && Grows(l, d, a + b) && Grows(l, 0.0, b);
  }

  /** `g` holds at least what `h` held plus what was refilled since, up to the capacity. */
  predicate Kept(l: Limits, h: Hash, g: Option<Hash>) {
    && g.Some? && Within(l, g)
    && g.value.tokens >= Min(l.capacity, h.tokens + l.refill(Elapsed(h.last, g.value.last)))
  }

  lemma {:induction false} DeniedCallsKeepTokens(l: Limits, h: Hash, calls: seq<CallAt>)
    requires Accrues(l) && Within(l, Some(h)) && AllDenied(l, Some(h), calls)
    ensures Kept(l, h, RunBucket(l, Some(h), calls))
  {
    if calls != [] {
      var before, c := calls[..|calls| - 1], calls[|calls| - 1];
      DeniedPrefix(l, Some(h), calls);
      DeniedCallsKeepTokens(l, h, before);
      var g := RunBucket(l, Some(h), before).value;
      RefillPieces(l, h.tokens, h.last, g, c.now);
      assert !Allows(l, Some(g), c.now, c.requested);
      assert RunBucket(l, Some(h), calls) == Some(Hash(Refilled(l, Some(g), c.now), c.now));
    }
  }

  /** The clock reads no earlier than `start` and does not run backwards. */
  predicate Follows(start: real, calls: seq<CallAt>) { Monotone(calls) && (calls != [] ==> start <= calls[0].now) }

  function LastReading(start: real, calls: seq<CallAt>): real {
    if calls == [] then start else calls[|calls| - 1].now
  }

  lemma FollowsPrefix(start: real, calls: seq<CallAt>)
    requires Follows(start, calls) && calls != []
    ensures var before := calls[..|calls| - 1];
      Follows(start, before) && LastReading(start, before) <= LastReading(start, calls)
  {
    var before := calls[..|calls| - 1];
    assert forall k | 0 <= k < |before| :: before[k] == calls[k];
  }

  lemma RefillAddsNothing(l: Limits, h: Hash, g: Hash, now: real, r: real)
    requires Accrues(l) && g.tokens <= h.tokens + l.refill(g.last - h.last) && g.last <= now
    requires r == Refilled(l, Some(g), now)
    ensures r <= h.tokens + l.refill(now - h.last)
  {
    RefillSplits(l, g.last - h.last, now - g.last, now - h.last);
    assert Elapsed(g.last, now) == now - g.last;
  }

  predicate NoneNegative(calls: seq<CallAt>) { forall k | 0 <= k < |calls| :: calls[k].requested >= 0.0 }

  /** The bucket holds no more than `h` did plus what was refilled since, all told. */
  ghost predicate NoMoreThan(l: Limits, h: Hash, g: Option<Hash>, last: real) {
    g.Some? && g.value.tokens <= h.tokens + l.refill(last - h.last) && g.value.last == last
  }

  lemma NothingYet(l: Limits, h: Hash)
    requires Accrues(l)
    ensures NoMoreThan(l, h, Some(h), h.last)
  {
    assert h.last - h.last == 0.0;
  }

  lemma NoMoreLater(l: Limits, h: Hash, g: Option<Hash>, last: real, now: real, requested: real)
    requires Accrues(l) && NoMoreThan(l, h, g, last) && last <= now && requested >= 0.0
    ensures NoMoreThan(l, h, Some(After(l, g, now, requested)), now)
  {
    RefillAddsNothing(l, h, g.value, now, Refilled(l, g, now));
    AfterTakesAway(l, g, now, requested);
  }

  lemma AfterTakesAway(l: Limits, g: Option<Hash>, now: real, requested: real)
    requires requested >= 0.0
    ensures After(l, g, now, requested).tokens <= Refilled(l, g, now) && After(l, g, now, requested).last == now
  {
  }

  lemma {:induction false} CallsAddNothing(l: Limits, h: Hash, calls: seq<CallAt>)
    requires Accrues(l) && NoneNegative(calls) && Follows(h.last, calls)
    ensures NoMoreThan(l, h, RunBucket(l, Some(h), calls), LastReading(h.last, calls))
  {
    if calls == [] {
      NothingYet(l, h);
    } else {
      var before, c := calls[..|calls| - 1], calls[|calls| - 1];
      FollowsPrefix(h.last, calls);
      CallsAddNothing(l, h, before);
      NoMoreLater(l, h, RunBucket(l, Some(h), before), LastReading(h.last, before), c.now, c.requested);
    }
  }

  /** Retry-after is honoured exactly when the request fits the bucket at all: after a denial
      at `t`, and however many denied calls with whatever clock readings later, the same
      request at or after `t + retryAfter` is allowed iff it is at most the capacity. */
  lemma RetryAfterSuffices(l: Limits, rate: real, h: Option<Hash>, t: real, requested: real,
                           calls: seq<CallAt>, now: real, denied: Hash)
    requires Rated(l, rate) && Within(l, h) && !Allows(l, h, t, requested)
    requires denied == After(l, h, t, requested) && AllDenied(l, Some(denied), calls)
    requires now >= t + RetryAfter(l, rate, h, t, requested) as real
    ensures Allows(l, RunBucket(l, Some(denied), calls), now, requested) <==> requested <= l.capacity
  {
    RatedAccrues(l, rate);
    RefilledWithin(l, h, t);
    RetryDelay(l, rate, requested, denied.tokens, now - t);
    AllowedAfterDelay(l, denied, calls, now, now - t, requested);
  }

  lemma AllowedAfterDelay(l: Limits, denied: Hash, calls: seq<CallAt>, now: real, since: real, requested: real)
    requires Accrues(l) && Within(l, Some(denied)) && AllDenied(l, Some(denied), calls)
    requires since == now - denied.last >= 0.0 && denied.tokens + l.refill(since) >= requested
    ensures Allows(l, RunBucket(l, Some(denied), calls), now, requested) <==> requested <= l.capacity
  {
    DeniedCallsKeepTokens(l, denied, calls);
    EnoughRefill(l, denied, RunBucket(l, Some(denied), calls), now, since, requested);
  }

  lemma EnoughRefill(l: Limits, denied: Hash, g: Option<Hash>, now: real, since: real, requested: real)
    requires Accrues(l) && since == now - denied.last >= 0.0 && denied.tokens + l.refill(since) >= requested
    requires Kept(l, denied, g)
    ensures Allows(l, g, now, requested) <==> requested <= l.capacity
  {
    RefillPieces(l, denied.tokens, denied.last, g.value, now);
    assert Elapsed(denied.last, now) == since;
  }

  lemma RefilledWithin(l: Limits, h: Option<Hash>, now: real)
    requires Accrues(l) && Within(l, h)
    ensures 0.0 <= Refilled(l, h, now) <= l.capacity
  {
    if h.Some? {
      assert Grows(l, 0.0, Elapsed(h.value.last, now));
    }
  }

  lemma RetryDelay(l: Limits, rate: real, requested: real, tokens: real, delay: real)
    requires Rated(l, rate) && tokens < requested
    ensures delay >= Ceil((requested - tokens) / rate) as real ==> tokens + l.refill(delay) >= requested && delay >= 0.0
    ensures delay <= Ceil((requested - tokens) / rate) as real - 1.0 ==> tokens + l.refill(delay) < requested
  {
    var need := requested - tokens;
    CeilIs(need / rate);
    DelayRefills(l, rate, need, delay);
    DelayRefills(l, rate, need, 0.0);
    assert RefillsAt(l, rate, 0.0);
  }

  /** And it is the least whole number of seconds: with a clock that does not run backwards,
      the same request a whole `k < retryAfter` seconds after the denial is denied, whatever
      calls were made and allowed in between. */
  lemma RetryAfterIsLeast(l: Limits, rate: real, h: Option<Hash>, t: real, requested: real,
                          calls: seq<CallAt>, k: nat, denied: Hash)
    requires Rated(l, rate) && !Allows(l, h, t, requested) && denied == After(l, h, t, requested)
    requires k < RetryAfter(l, rate, h, t, requested)
    requires Follows(t, calls) && LastReading(t, calls) <= t + k as real && NoneNegative(calls)
    ensures !Allows(l, RunBucket(l, Some(denied), calls), t + k as real, requested)
  {
    RatedAccrues(l, rate);
    CallsAddNothing(l, denied, calls);
    var g, now := RunBucket(l, Some(denied), calls).value, t + k as real;
    RefillAddsNothing(l, denied, g, now, Refilled(l, Some(g), now));
    RetryDelay(l, rate, requested, denied.tokens, now - t);
  }

  // ---- expiry of idle buckets

  /** A run in which the key may be gone before a call. */
  function RunEvicting(l: Limits, calls: seq<CallAt>, gone: seq<bool>): Option<Hash>
    requires |gone| == |calls|
  {
    if calls == [] then None
    else
      var n := |calls| - 1;
      var h := RunEvicting(l, calls[..n], gone[..n]);
      Some(After(l, if gone[n] then None else h, calls[n].now, calls[n].requested))
  }

  /** EXPIRE: the key is only gone once its idle time has reached the TTL. */
  ghost predicate ExpiresIdle(l: Limits, rate: real, calls: seq<CallAt>, gone: seq<bool>)
    requires rate > 0.0 && |gone| == |calls|
  {
    forall n | 0 <= n < |calls| && gone[n] ::
      n == 0 || calls[n].now >= calls[n - 1].now + TTL(l.capacity, rate) as real
  }

  /** The TTL is twice the least whole number of seconds in which an empty bucket fills. */
  lemma TTLIsTwiceTheFill(l: Limits, rate: real)
    requires Rated(l, rate)
    ensures TTL(l.capacity, rate) % 2 == 0 && var fill := TTL(l.capacity, rate) / 2;
      l.refill(fill as real) >= l.capacity && l.refill(fill as real - 1.0) < l.capacity
  {
    var q := l.capacity / rate;
    CeilIs(q);
    DelayRefills(l, rate, l.capacity, Ceil(q) as real);
    DelayRefills(l, rate, l.capacity, Ceil(q) as real - 1.0);
  }

  lemma IdleBucketIsFull(l: Limits, rate: real, h: Hash, now: real)
    requires Rated(l, rate) && h.tokens >= 0.0 && now >= h.last + TTL(l.capacity, rate) as real
    ensures Refilled(l, Some(h), now) == l.capacity
  {
    RatedAccrues(l, rate);
    var q := l.capacity / rate;
    CeilIs(q);
    assert q >= 0.0;
    DelayRefills(l, rate, l.capacity, Elapsed(h.last, now));
  }

  /** Eviction is invisible: a bucket that drops its key after the TTL goes through the same
      states as one that keeps it, and so gives the same answer to every call. */
  lemma {:induction false} EvictionIsInvisible(l: Limits, rate: real, calls: seq<CallAt>, gone: seq<bool>)
    requires Rated(l, rate) && |gone| == |calls| && ExpiresIdle(l, rate, calls, gone)
    requires forall k | 0 <= k < |calls| :: calls[k].requested >= 0.0
    ensures RunEvicting(l, calls, gone) == RunBucket(l, None, calls)
    ensures calls != [] ==> var n := |calls| - 1;
      Allows(l, if gone[n] then None else RunEvicting(l, calls[..n], gone[..n]), calls[n].now, calls[n].requested)
      == Allows(l, RunBucket(l, None, calls[..n]), calls[n].now, calls[n].requested)
  {
    if calls != [] {
      var n := |calls| - 1;
      EvictionIsInvisible(l, rate, calls[..n], gone[..n]);
      RatedAccrues(l, rate);
      if n > 0 {
        GrantedBound(l, None, calls[0].now, calls[..n]);
        if gone[n] {
          IdleBucketIsFull(l, rate, RunBucket(l, None, calls[..n]).value, calls[n].now);
        }
      }
    }
  }

  // ---- the code

  class Bucket {
    const capacity: real
    const rate: real
    var stored: bool
    var tokens: real
    var last: real

    ghost function View(): Option<Hash>
      reads this
    {
      if stored then Some(Hash(tokens, last)) else None
    }

    ghost function Rules(): (l: Limits)
      requires capacity >= 0.0 && rate > 0.0
      ensures Rated(l, rate) && l.capacity == capacity
    {
      Limits(capacity, (d: real) => d * rate)
    }

    constructor (capacity: real, rate: real)
      ensures this.capacity == capacity && this.rate == rate && View() == None
    {
      this.capacity, this.rate, stored, tokens, last := capacity, rate, false, 0.0, 0.0;
    }

    /** One run of the script. */
    method Take(now: real, requested: real) returns (allowed: bool, remaining: int, retryAfter: int)
      requires capacity >= 0.0 && rate > 0.0
      modifies this
      ensures allowed == Allows(Rules(), old(View()), now, requested)
      ensures View() == Some(After(Rules(), old(View()), now, requested))
      ensures var found := if old(stored) then Min(capacity, old(tokens) + Max(0.0, now - old(last)) * rate) else capacity;
        && (allowed <==> requested <= found)
        && tokens == found - (if allowed then requested else 0.0) && last == now && stored
      ensures remaining as real <= tokens < remaining as real + 1.0
      ensures allowed ==> retryAfter == 0
      ensures retryAfter == RetryAfter(Rules(), rate, old(View()), now, requested)
    {
      ghost var l := Rules();
      if !stored {
        tokens, last := capacity, now;
      } else {
        assert RefillsAt(l, rate, Elapsed(last, now));
        tokens := Min(capacity, tokens + Elapsed(last, now) * rate);
      }
      if tokens >= requested {
        tokens := tokens - requested;
        stored, last := true, now;
        return true, tokens.Floor, 0;
      }
      stored, last := true, now;
      return false, tokens.Floor, Ceil((requested - tokens) / rate);
    }
  }
}
