/** The circuit breaker of internal/resilience/circuitbreaker.go. The lock is released while
    the protected function runs, so a call is two steps, Begin and End, and any number of
    calls may be between the two. Times are nanoseconds of one clock. */
module Resilience {
  import opened Common

  datatype Mode = CLOSED | HALFOPEN | OPEN

  datatype Settings = Settings(maxFailures: int, cooldown: int, probes: int)

  /** The defaults that NewCircuitBreaker substitutes. */
  function Defaulted(s: Settings): Settings {
    Settings(
      if s.maxFailures <= 0 then 5 else s.maxFailures,
      if s.cooldown <= 0 then 5_000_000_000 else s.cooldown,
      if s.probes <= 0 then 2 else s.probes)
  }

  /** A setting that is positive is kept, and each of the others has a default of its own. */
  lemma DefaultsAreForMissingSettings(s: Settings)
    ensures Sound(Defaulted(s)) && (Sound(s) ==> Defaulted(s) == s)
    ensures var d := Defaulted(s);
      && d.maxFailures == (if s.maxFailures > 0 then s.maxFailures else 5)
      && d.cooldown == (if s.cooldown > 0 then s.cooldown else 5_000_000_000)
      && d.probes == (if s.probes > 0 then s.probes else 2)
  {
  }

  predicate Sound(s: Settings) { s.maxFailures > 0 && s.cooldown > 0 && s.probes > 0 }

  /** `lastFailedAt` is None for the zero time, which is longer ago than any cooldown;
      `running` counts the calls between Begin and End. */
  datatype Breaker = Breaker(mode: Mode, failures: int, successes: int, lastFailedAt: Option<int>, running: nat)

  const FRESH := Breaker(CLOSED, 0, 0, None, 0)

  datatype Event =
    | Check(now: int)
    | Begin(now: int)
    | End(now: int, ok: bool)
    | Panic(now: int)             // the protected function panics, so Execute never gets to End
    | Reset

  predicate Cooled(s: Settings, last: Option<int>, now: int) {
    match last case None => true case Some(t) => now - t >= s.cooldown
  }

  function Checked(s: Settings, b: Breaker, now: int): Breaker {
    if b.mode == OPEN && Cooled(s, b.lastFailedAt, now) then b.(mode := HALFOPEN, successes := 0, failures := 0)
    else b
  }

  predicate Starts(s: Settings, b: Breaker, e: Event) { e.Begin? && Checked(s, b, e.now).mode != OPEN }

  predicate Fails(b: Breaker, e: Event) { e.End? && b.running > 0 && !e.ok }

  predicate Succeeds(b: Breaker, e: Event) { e.End? && b.running > 0 && e.ok }

  function AfterFailure(s: Settings, b: Breaker, now: int): Breaker {
    var late := b.(lastFailedAt := Some(now));
    match b.mode
    case CLOSED => late.(failures := b.failures + 1, mode := if b.failures + 1 >= s.maxFailures then OPEN else CLOSED)
    case HALFOPEN => late.(failures := s.maxFailures, successes := 0, mode := OPEN)
    case OPEN => late
  }

  function AfterSuccess(s: Settings, b: Breaker): Breaker {
    match b.mode
    case CLOSED => b.(failures := 0)
    case HALFOPEN =>
      if b.successes + 1 >= s.probes then b.(mode := CLOSED, failures := 0, successes := 0)
      else b.(successes := b.successes + 1)
    case OPEN => b
  }

  /** One step. An end without a running call is no step. */
  function Apply(s: Settings, b: Breaker, e: Event): Breaker {
    match e
    case Check(now) => Checked(s, b, now)
    case Begin(now) =>
      var c := Checked(s, b, now);
      c.(running := if c.mode == OPEN then c.running else c.running + 1)
    case End(now, ok) =>
      if b.running == 0 then b
      else
        var c := if ok then AfterSuccess(s, b) else AfterFailure(s, b, now);
        c.(running := b.running - 1)
    case Panic(_) => if b.running == 0 then b else b.(running := b.running - 1)
    case Reset => b.(mode := CLOSED, failures := 0, successes := 0, lastFailedAt := None)
  }

  function Run(s: Settings, events: seq<Event>): Breaker {
    if events == [] then FRESH else Apply(s, Run(s, events[..|events| - 1]), events[|events| - 1])
  }

  // ---- the completion log

  /** The failed completions since the breaker last closed, was reset or saw a success. */
  function Streak(s: Settings, events: seq<Event>): nat {
    if events == [] then 0
    else
      var before, e := events[..|events| - 1], events[|events| - 1];
      var b := Run(s, before);
      if b.mode != CLOSED || e.Reset? || Succeeds(b, e) then 0
      else if Fails(b, e) then Streak(s, before) + 1
      else Streak(s, before)
  }

  function LatestFailure(s: Settings, events: seq<Event>): Option<int> {
    if events == [] then None
    else
      var before, e := events[..|events| - 1], events[|events| - 1];
      if e.Reset? then None
      else if Fails(Run(s, before), e) then Some(e.now)
      else LatestFailure(s, before)
  }

  /** The successful completions among `events[from..]`. */
  function Successes(s: Settings, events: seq<Event>, from: nat): nat {
    if |events| <= from then 0
    else
      var before, e := events[..|events| - 1], events[|events| - 1];
      Successes(s, before, from) + if Succeeds(Run(s, before), e) then 1 else 0
  }

  /** `events[..from]` ends by entering HALF_OPEN, and since then the breaker has been in
      HALF_OPEN throughout and no call has failed. */
  ghost predicate Probing(s: Settings, events: seq<Event>, from: nat) {
    && 0 < from <= |events|
    && Run(s, events[..from - 1]).mode == OPEN
    && (forall k | from <= k <= |events| :: Run(s, events[..k]).mode == HALFOPEN)
    && (forall k | from <= k < |events| :: !Fails(Run(s, events[..k]), events[k]) && !events[k].Reset?)
  }

  // ---- the breaker refines its log

  /** `lastFailedAt` is the latest failure of any call, also of one that ended late. */
  lemma {:induction false} LastFailedAtIsLatest(s: Settings, events: seq<Event>)
    ensures Run(s, events).lastFailedAt == LatestFailure(s, events)
  {
    if events != [] { LastFailedAtIsLatest(s, events[..|events| - 1]); }
  }

  /** In CLOSED the counter is the current run of failures and below the maximum. */
  lemma {:induction false} ClosedCountsTheStreak(s: Settings, events: seq<Event>)
    requires Sound(s)
    ensures Run(s, events).mode == CLOSED ==> Run(s, events).failures == Streak(s, events) < s.maxFailures
  {
    if events != [] {
      ClosedCountsTheStreak(s, events[..|events| - 1]);
    }
  }

  /** A closed breaker opens on exactly the failure that completes a run of `maxFailures`. */
  lemma TripsExactly(s: Settings, events: seq<Event>, e: Event)
    requires Sound(s) && Run(s, events).mode == CLOSED
    ensures Run(s, events + [e]).mode == OPEN <==> Fails(Run(s, events), e) && Streak(s, events + [e]) == s.maxFailures
    ensures Run(s, events + [e]).mode in {CLOSED, OPEN}
  {
    assert (events + [e])[..|events|] == events;
    ClosedCountsTheStreak(s, events);
  }

  lemma Earlier(s: Settings, events: seq<Event>, e: Event, k: nat)
    requires k <= |events|
    ensures (events + [e])[..k] == events[..k]
  {
  }

  lemma ProbingExtends(s: Settings, events: seq<Event>, e: Event, from: nat)
    requires Probing(s, events, from) && Run(s, events + [e]).mode == HALFOPEN
    ensures Probing(s, events + [e], from)
    ensures Successes(s, events + [e], from) == Successes(s, events, from) + if Succeeds(Run(s, events), e) then 1 else 0
  {
    var all := events + [e];
    RunPush(s, events, e);
    Earlier(s, events, e, |events|);
    forall k | from <= k <= |all|
      ensures Run(s, all[..k]).mode == HALFOPEN
      ensures k < |all| ==> !Fails(Run(s, all[..k]), all[k]) && !all[k].Reset?
    {
      ProbingAt(s, events, e, from, k);
    }
    Earlier(s, events, e, from - 1);
  }

  lemma ProbingAt(s: Settings, events: seq<Event>, e: Event, from: nat, k: nat)
    requires Probing(s, events, from) && Run(s, events + [e]).mode == HALFOPEN && from <= k <= |events + [e]|
    ensures var all := events + [e];
      && Run(s, all[..k]).mode == HALFOPEN
      && (k < |all| ==> !Fails(Run(s, all[..k]), all[k]) && !all[k].Reset?)
  {
    var all := events + [e];
    if k == |all| {
      assert all[..k] == all;
    } else {
      Earlier(s, events, e, k);
      if k == |events| {
        assert events[..k] == events;
        StaysHalfOpen(s, Run(s, events), e);
        RunPush(s, events, e);
      }
    }
  }

  lemma StaysHalfOpen(s: Settings, b: Breaker, e: Event)
    requires b.mode == HALFOPEN && Apply(s, b, e).mode == HALFOPEN
    ensures !Fails(b, e) && !e.Reset?
  {
  }

  lemma ProbingBegins(s: Settings, events: seq<Event>, e: Event)
    requires Run(s, events).mode == OPEN && Run(s, events + [e]).mode == HALFOPEN
    ensures Probing(s, events + [e], |events| + 1)
  {
    assert (events + [e])[..|events|] == events;
    assert (events + [e])[..|events| + 1] == events + [e];
  }

  lemma RunPush(s: Settings, events: seq<Event>, e: Event)
    ensures Run(s, events + [e]) == Apply(s, Run(s, events), e)
  {
    assert (events + [e])[..|events|] == events;
  }

  lemma ProbeCounted(s: Settings, b: Breaker, e: Event, b': Breaker)
    requires Sound(s) && b.mode == HALFOPEN && b' == Apply(s, b, e) && b'.mode == HALFOPEN && b.successes < s.probes
    ensures b'.successes == b.successes + (if Succeeds(b, e) then 1 else 0) < s.probes
  {
  }

  lemma ProbesBeginAtZero(s: Settings, b: Breaker, e: Event, b': Breaker)
    requires b.mode != HALFOPEN && b' == Apply(s, b, e) && b'.mode == HALFOPEN
    ensures b.mode == OPEN && b'.successes == 0
  {
  }

  /** In HALF_OPEN the counter is the number of successes since HALF_OPEN was entered, with no
      failure since, and below the number required. */
  lemma {:induction false} HalfOpenCountsProbes(s: Settings, events: seq<Event>) returns (from: nat)
    requires Sound(s) && Run(s, events).mode == HALFOPEN
    ensures Probing(s, events, from)
    ensures Run(s, events).successes == Successes(s, events, from) < s.probes
  {
    var before, e := events[..|events| - 1], events[|events| - 1];
    assert events == before + [e];
    RunPush(s, before, e);
    if Run(s, before).mode == HALFOPEN {
      from := HalfOpenCountsProbes(s, before);
      ProbingExtends(s, before, e, from);
      ProbeCounted(s, Run(s, before), e, Run(s, events));
    } else {
      ProbesBeginAtZero(s, Run(s, before), e, Run(s, events));
      ProbingBegins(s, before, e);
      from := |events|;
    }
  }

  /** Without a Reset the breaker closes only from HALF_OPEN, on the success that makes up the
      required number since HALF_OPEN was entered, with no failure since. */
  lemma ClosesOnlyAfterProbes(s: Settings, events: seq<Event>, e: Event) returns (from: nat)
    requires Sound(s) && Run(s, events).mode != CLOSED && Run(s, events + [e]).mode == CLOSED && !e.Reset?
    ensures Probing(s, events, from) && Succeeds(Run(s, events), e)
    ensures Successes(s, events + [e], from) == s.probes
  {
    assert (events + [e])[..|events|] == events;
    from := HalfOpenCountsProbes(s, events);
  }

  /** And on that success it does close: a half-open breaker closes exactly then, or on a Reset. */
  lemma HalfOpenClosesIff(s: Settings, events: seq<Event>, e: Event) returns (from: nat)
    requires Sound(s) && Run(s, events).mode == HALFOPEN
    ensures Probing(s, events, from)
    ensures Run(s, events + [e]).mode == CLOSED <==>
            e.Reset? || (Succeeds(Run(s, events), e) && Successes(s, events + [e], from) == s.probes)
  {
    assert (events + [e])[..|events|] == events;
    from := HalfOpenCountsProbes(s, events);
  }

  /** One failure reopens a half-open breaker at once. */
  lemma ProbeFailureReopens(s: Settings, events: seq<Event>, e: Event)
    requires Run(s, events).mode == HALFOPEN && !e.Reset?
    ensures Run(s, events + [e]).mode == OPEN <==> Fails(Run(s, events), e)
  {
    assert (events + [e])[..|events|] == events;
  }

  // ---- an open breaker

  /** A call finds an open breaker passable exactly when the cooldown has passed since the
      latest failure. */
  lemma {:induction false} OpenAdmitsIff(s: Settings, events: seq<Event>, now: int)
    requires Sound(s) && Run(s, events).mode == OPEN
    ensures LatestFailure(s, events).Some?
    ensures Starts(s, Run(s, events), Begin(now)) <==> now >= LatestFailure(s, events).value + s.cooldown
  {
    LastFailedAtIsLatest(s, events);
    OpenHasFailed(s, events);
  }

  lemma {:induction false} OpenHasFailed(s: Settings, events: seq<Event>)
    ensures Run(s, events).mode == OPEN ==> Run(s, events).lastFailedAt.Some?
  {
    if events != [] { OpenHasFailed(s, events[..|events| - 1]); }
  }

  /** Whether a call is refused, over every log: only by an open breaker, within the cooldown of
      the latest failure. A closed and a half-open breaker let every call start. */
  lemma RefusedIff(s: Settings, events: seq<Event>, now: int)
    requires Sound(s)
    ensures var b, b' := Run(s, events), Run(s, events + [Begin(now)]);
      var refused := b.mode == OPEN && LatestFailure(s, events).Some? && now < LatestFailure(s, events).value + s.cooldown;
      && (!Starts(s, b, Begin(now)) <==> refused)
      && b'.running == b.running + (if refused then 0 else 1)
      && b'.mode == if refused then OPEN else if b.mode == CLOSED then CLOSED else HALFOPEN
  {
    LastFailedAtIsLatest(s, events);
    if Run(s, events).mode == OPEN { OpenHasFailed(s, events); }
    RunPush(s, events, Begin(now));
  }

  /** What each step does to the mode of an open breaker and to the number of calls in flight. */
  lemma OpenStep(s: Settings, events: seq<Event>, e: Event)
    requires Sound(s) && Run(s, events).mode == OPEN
    ensures LatestFailure(s, events).Some?
    ensures Run(s, events + [e]).mode ==
      if e.Reset? then CLOSED
      else if (e.Check? || e.Begin?) && e.now >= LatestFailure(s, events).value + s.cooldown then HALFOPEN
      else OPEN
  {
    OpenHasFailed(s, events);
    LastFailedAtIsLatest(s, events);
    RunPush(s, events, e);
  }

  lemma RunningStep(s: Settings, events: seq<Event>, e: Event)
    requires !e.Begin?
    ensures var n := Run(s, events).running;
      Run(s, events + [e]).running == if n > 0 && (e.End? || e.Panic?) then n - 1 else n
  {
    RunPush(s, events, e);
  }

  /** The steps between the failure at `t` and the end of its cooldown. */
  predicate During(s: Settings, t: int, later: seq<Event>) {
    forall k | 0 <= k < |later| :: !later[k].Reset? && t <= later[k].now < t + s.cooldown
  }

  lemma {:induction false} OpenHolds(s: Settings, events: seq<Event>, t: int, later: seq<Event>)
    requires Run(s, events).mode == OPEN && LatestFailure(s, events) == Some(t) && During(s, t, later)
    ensures var b := Run(s, events + later); b.mode == OPEN && b.lastFailedAt.Some? && b.lastFailedAt.value >= t
  {
    if later == [] {
      assert events + later == events;
      LastFailedAtIsLatest(s, events);
    } else {
      var n := |later| - 1;
      OpenHolds(s, events, t, later[..n]);
      assert (events + later)[..|events + later| - 1] == events + later[..n];
    }
  }

  predicate MonotoneClock(events: seq<Event>) {
    forall i, j | 0 <= i <= j < |events| && !events[i].Reset? && !events[j].Reset? :: events[i].now <= events[j].now
  }

  lemma RunPrefix(s: Settings, events: seq<Event>, k: nat)
    requires k < |events|
    ensures Run(s, events[..k + 1]) == Apply(s, Run(s, events[..k]), events[k])
    ensures Fails(Run(s, events[..k]), events[k]) ==> LatestFailure(s, events[..k + 1]) == Some(events[k].now)
  {
    assert events[..k + 1][..k] == events[..k];
  }

  /** No call starts before the cooldown has passed since any failure that found or left the
      breaker open, whether of a call that was let through or of one that ended late: over
      every run with a clock that does not run backwards and no Reset in between. */
  lemma NoStartBeforeCooldown(s: Settings, events: seq<Event>, i: nat, j: nat)
    requires i < j < |events| && MonotoneClock(events)
    requires forall k | i <= k <= j :: !events[k].Reset?
    requires Fails(Run(s, events[..i]), events[i]) && Run(s, events[..i + 1]).mode == OPEN
    requires events[j].now < events[i].now + s.cooldown
    ensures !Starts(s, Run(s, events[..j]), events[j]) && Run(s, events[..j + 1]).mode == OPEN
  {
    var t := events[i].now;
    RunPrefix(s, events, i);
    var later := events[i + 1..j];
    forall k | 0 <= k < |later|
      ensures !later[k].Reset? && t <= later[k].now < t + s.cooldown
    {
      assert later[k] == events[i + 1 + k];
    }
    assert events[..i + 1] + later == events[..j];
    OpenHolds(s, events[..i + 1], t, later);
    RunPrefix(s, events, j);
    assert t <= events[j].now;
  }

  // ---- late completions

  function RunFrom(s: Settings, b: Breaker, events: seq<Event>): Breaker {
    if events == [] then b else Apply(s, RunFrom(s, b, events[..|events| - 1]), events[|events| - 1])
  }

  lemma {:induction false} RunIsRunFrom(s: Settings, events: seq<Event>, later: seq<Event>)
    ensures Run(s, events + later) == RunFrom(s, Run(s, events), later)
  {
    if later == [] {
      assert events + later == events;
    } else {
      var n := |later| - 1;
      RunIsRunFrom(s, events, later[..n]);
      assert (events + later)[..|events + later| - 1] == events + later[..n];
    }
  }

  /** No step of the continuation starts a call or resets the breaker. */
  ghost predicate StartsNothing(s: Settings, b: Breaker, later: seq<Event>) {
    forall k | 0 <= k < |later| :: !later[k].Reset? && !Starts(s, RunFrom(s, b, later[..k]), later[k])
  }

  lemma StartsNothingPrefix(s: Settings, b: Breaker, later: seq<Event>)
    requires StartsNothing(s, b, later) && later != []
    ensures StartsNothing(s, b, later[..|later| - 1])
    ensures var n := |later| - 1; !later[n].Reset? && !Starts(s, RunFrom(s, b, later[..n]), later[n])
  {
    var before := later[..|later| - 1];
    forall k | 0 <= k < |before|
      ensures !before[k].Reset? && !Starts(s, RunFrom(s, b, before[..k]), before[k])
    {
      assert before[..k] == later[..k] && before[k] == later[k];
    }
  }

  /** Without starts, the half-open successes are among the calls in flight at the beginning. */
  lemma {:induction false} LateSuccesses(s: Settings, b: Breaker, later: seq<Event>)
    requires Sound(s) && b.mode == OPEN && b.running < s.probes && StartsNothing(s, b, later)
    ensures var t := RunFrom(s, b, later);
      t.mode != CLOSED && t.running <= b.running && (t.mode == HALFOPEN ==> 0 <= t.successes && t.successes + t.running <= b.running)
  {
    if later != [] {
      StartsNothingPrefix(s, b, later);
      LateSuccesses(s, b, later[..|later| - 1]);
    }
  }

  /** `n` calls end well at `now`. */
  function Ends(n: nat, now: int): seq<Event> { if n == 0 then [] else Ends(n - 1, now) + [End(now, true)] }

  lemma {:induction false} EndsStartNothing(n: nat, now: int)
    ensures |Ends(n, now)| == n && forall k | 0 <= k < n :: Ends(n, now)[k] == End(now, true)
  {
    if n > 0 { EndsStartNothing(n - 1, now); }
  }

  lemma {:induction false} EndsClose(s: Settings, b: Breaker, n: nat, now: int)
    requires Sound(s) && b.mode == HALFOPEN && b.successes == 0 && n <= s.probes && n <= b.running
    ensures var t := RunFrom(s, b, Ends(n, now));
      t.running == b.running - n && if n == s.probes then t.mode == CLOSED else t.mode == HALFOPEN && t.successes == n
  {
    if n > 0 {
      EndsClose(s, b, n - 1, now);
      assert Ends(n, now)[..|Ends(n, now)| - 1] == Ends(n - 1, now);
    }
  }

  lemma RunFromCons(s: Settings, b: Breaker, e: Event, later: seq<Event>)
    ensures RunFrom(s, b, [e] + later) == RunFrom(s, Apply(s, b, e), later)
    decreases |later|
  {
    if later == [] {
      assert [e] + later == [e] && [e][..0] == [];
    } else {
      var n := |later| - 1;
      RunFromCons(s, b, e, later[..n]);
      assert ([e] + later)[..|[e] + later| - 1] == [e] + later[..n];
    }
  }

  lemma LateCallsClose(s: Settings, b: Breaker) returns (later: seq<Event>)
    requires Sound(s) && b.mode == OPEN && b.running >= s.probes
    ensures StartsNothing(s, b, later) && RunFrom(s, b, later).mode == CLOSED
  {
    var now := match b.lastFailedAt case None => 0 case Some(t) => t + s.cooldown;
    EndsStartNothing(s.probes, now);
    later := [Check(now)] + Ends(s.probes, now);
    EndsClose(s, Apply(s, b, Check(now)), s.probes, now);
    RunFromCons(s, b, Check(now), Ends(s.probes, now));
    assert forall k | 0 <= k < |later| :: later[k] == if k == 0 then Check(now) else End(now, true);
  }

  /** Closing need not mean that a probe went through: successes of calls that began before the
      breaker tripped count too. An open breaker can close without a Reset and without letting
      a single call through exactly when at least as many calls are still in flight as
      successes are required. */
  lemma ClosesWithoutProbeIff(s: Settings, b: Breaker)
    requires Sound(s) && b.mode == OPEN
    ensures (exists later :: StartsNothing(s, b, later) && RunFrom(s, b, later).mode == CLOSED) <==> b.running >= s.probes
  {
    if b.running >= s.probes {
      var later := LateCallsClose(s, b);
    } else {
      forall later | StartsNothing(s, b, later)
        ensures RunFrom(s, b, later).mode != CLOSED
      {
        LateSuccesses(s, b, later);
      }
    }
  }

  /** Such breakers come about: `n` calls begin, one more fails the breaker open. */
  lemma {:induction false} ManyBegin(s: Settings, n: nat, now: int) returns (events: seq<Event>)
    requires Sound(s)
    ensures Run(s, events) == FRESH.(running := n)
  {
    events := [];
    for k := 0 to n
      invariant Run(s, events) == FRESH.(running := k)
    {
      RunPush(s, events, Begin(now));
      events := events + [Begin(now)];
    }
  }

  lemma ManyFail(s: Settings, start: seq<Event>, n: nat, now: int) returns (events: seq<Event>)
    requires Sound(s) && Run(s, start) == FRESH.(running := n + s.maxFailures)
    ensures Run(s, events).mode == OPEN && Run(s, events).running == n
  {
    events := start;
    for k := 0 to s.maxFailures
      invariant Run(s, events).running == n + s.maxFailures - k && Run(s, events).failures == k
      invariant Run(s, events).mode == if k < s.maxFailures then CLOSED else OPEN
    {
      RunPush(s, events, End(now, false));
      events := events + [End(now, false)];
    }
  }

  /** For every configuration some log from the start closes the breaker in that way. */
  lemma StaleSuccessesClose(s: Settings, now: int) returns (events: seq<Event>, later: seq<Event>)
    requires Sound(s)
    ensures Run(s, events).mode == OPEN && StartsNothing(s, Run(s, events), later)
    ensures Run(s, events + later).mode == CLOSED
  {
    events := ManyBegin(s, s.probes + s.maxFailures, now);
    events := ManyFail(s, events, s.probes, now);
    later := LateCallsClose(s, Run(s, events));
    RunIsRunFrom(s, events, later);
  }

  // ---- the code

  /** How the protected function ends. */
  datatype Ending = Returns(ok: bool) | Panics

  datatype Reply = Ran(ok: bool) | CircuitOpen | Panicked

  function EndOf(outcome: Ending, now: int): Event {
    match outcome case Returns(ok) => End(now, ok) case Panics => Panic(now)
  }

  class CircuitBreaker {
    const cfg: Settings
    var state: Mode
    var failures: int
    var successes: int
    var lastFailedAt: Option<int>
    ghost var running: nat
    ghost var log: seq<Event>

    ghost predicate Valid()
      reads this
    {
      && Sound(cfg)
      && Breaker(state, failures, successes, lastFailedAt, running) == Run(cfg, log)
    }

    ghost function View(): Breaker
      reads this
    {
      Breaker(state, failures, successes, lastFailedAt, running)
    }

    /** Open, and its last failure is less than the cooldown ago. */
    ghost predicate Refuses(b: Breaker, now: int) {
      b.mode == OPEN && b.lastFailedAt.Some? && now - b.lastFailedAt.value < cfg.cooldown
    }

    ghost method Record(e: Event)
      requires View() == Apply(cfg, Run(cfg, log), e) && Sound(cfg)
      modifies `log
      ensures Valid() && log == old(log) + [e]
    {
      assert (log + [e])[..|log|] == log;
      log := log + [e];
    }

    constructor (cfg: Settings)
      ensures Valid() && this.cfg == Defaulted(cfg) && log == []
    {
      this.cfg := Defaulted(cfg);
      state, failures, successes, lastFailedAt := CLOSED, 0, 0, None;
      running, log := 0, [];
    }

    method CheckStateLocked(now: int)
      modifies `state, `failures, `successes
      ensures View() == Checked(cfg, old(View()), now)
    {
      if state == OPEN && Cooled(cfg, lastFailedAt, now) {
        state := HALFOPEN;
        successes := 0;
        failures := 0;
      }
    }

    method OnFailureLocked(now: int)
      modifies `state, `failures, `successes, `lastFailedAt
      ensures View() == AfterFailure(cfg, old(View()), now)
    {
      lastFailedAt := Some(now);
      match state
      case CLOSED =>
        failures := failures + 1;
        if failures >= cfg.maxFailures {
          state := OPEN;
        }
      case HALFOPEN =>
        state := OPEN;
        failures := cfg.maxFailures;
        successes := 0;
      case OPEN =>
    }

    method OnSuccessLocked()
      modifies `state, `failures, `successes
      ensures View() == AfterSuccess(cfg, old(View()))
    {
      match state
      case CLOSED =>
        failures := 0;
      case HALFOPEN =>
        successes := successes + 1;
        if successes >= cfg.probes {
          state := CLOSED;
          failures := 0;
          successes := 0;
        }
      case OPEN =>
    }

    method State(now: int) returns (mode: Mode)
      requires Valid()
      modifies this
      ensures Valid() && log == old(log) + [Check(now)] && mode == state
      ensures mode == if old(state) == OPEN && !Refuses(old(View()), now) then HALFOPEN else old(state)
    {
      CheckStateLocked(now);
      Record(Check(now));
      mode := state;
    }

    method Begin(now: int) returns (admitted: bool)
      requires Valid()
      modifies this
      ensures Valid() && log == old(log) + [Event.Begin(now)]
      ensures admitted == Starts(cfg, old(View()), Event.Begin(now))
      ensures !admitted <==>
        old(state) == OPEN && old(lastFailedAt).Some? && now < old(lastFailedAt).value + cfg.cooldown
      ensures running == old(running) + if admitted then 1 else 0
    {
      CheckStateLocked(now);
      admitted := state != OPEN;
      if admitted {
        running := running + 1;
      }
      Record(Event.Begin(now));
    }

    method End(now: int, ok: bool)
      requires Valid() && running > 0
      modifies this
      ensures Valid() && log == old(log) + [Event.End(now, ok)]
      ensures running == old(running) - 1 && lastFailedAt == if ok then old(lastFailedAt) else Some(now)
      ensures state == match old(state)
                       case OPEN => OPEN
                       case HALFOPEN => if !ok then OPEN else if old(successes) + 1 >= cfg.probes then CLOSED else HALFOPEN
                       case CLOSED => if !ok && old(failures) + 1 >= cfg.maxFailures then OPEN else CLOSED
    {
      if !ok {
        OnFailureLocked(now);
      } else {
        OnSuccessLocked();
      }
      running := running - 1;
      Record(Event.End(now, ok));
    }

    /** The panic unwinds through Execute while the lock is free. */
    method Unwind(now: int)
      requires Valid() && running > 0
      modifies this
      ensures Valid() && log == old(log) + [Panic(now)]
      ensures View() == old(View()).(running := running)
    {
      running := running - 1;
      Record(Panic(now));
    }

    method Reset()
      requires Valid()
      modifies this
      ensures Valid() && log == old(log) + [Event.Reset]
    {
      state := CLOSED;
      failures := 0;
      successes := 0;
      lastFailedAt := None;
      Record(Event.Reset);
    }

    /** What other callers do while the protected function runs. They end only calls of their
        own, so the call in progress is still running at every step. */
    method Meanwhile(others: seq<Event>)
      requires Valid() && forall k | 0 <= k <= |others| :: Run(cfg, log + others[..k]).running > 0
      modifies this
      ensures Valid() && log == old(log) + others && running > 0
    {
      ghost var start := log;
      assert others[..0] == [] && log + [] == log;
      for n := 0 to |others|
        invariant Valid() && log == start + others[..n]
      {
        assert others[..n + 1] == others[..n] + [others[n]];
        assert start + others[..n + 1] == log + [others[n]];
        Act(others[n]);
      }
      assert others[..|others|] == others;
    }

    method Act(e: Event)
      requires Valid() && (e.End? || e.Panic? ==> running > 0)
      modifies this
      ensures Valid() && log == old(log) + [e]
    {
      match e
      case Check(now) => var _ := State(now);
      case Begin(now) => var _ := Begin(now);
      case End(now, ok) => End(now, ok);
      case Panic(now) => Unwind(now);
      case Reset => Reset();
    }

    /** Execute around a function that takes from `now` to `later` and ends as `outcome` says. */
    method Execute(now: int, later: int, outcome: Ending, others: seq<Event>) returns (r: Reply)
      requires Valid()
      requires forall k | 0 <= k <= |others| ::
        !Refuses(View(), now) ==> Run(cfg, log + [Event.Begin(now)] + others[..k]).running > 0
      modifies this
      ensures Valid()
      ensures r == if Refuses(old(View()), now) then CircuitOpen
                   else match outcome case Returns(ok) => Ran(ok) case Panics => Panicked
      ensures r == CircuitOpen <==>
        old(state) == OPEN && old(lastFailedAt).Some? && now < old(lastFailedAt).value + cfg.cooldown
      ensures log == old(log) + [Event.Begin(now)] + if r == CircuitOpen then [] else others + [EndOf(outcome, later)]
    {
      var admitted := Begin(now);
      if !admitted {
        return CircuitOpen;
      }
      Meanwhile(others);
      match outcome
      case Returns(ok) =>
        End(later, ok);
        return Ran(ok);
      case Panics =>
        Unwind(later);
        return Panicked;
    }
  }
}
