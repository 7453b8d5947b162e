/** The sweep of `Reserve` among other processes, and the sold-out latch it may set. */
module OrderSweep {
  import opened Common
  import opened Inventory
  import opened OrderModel
  import opened OrderInvariants
  import opened OrderSteps
  import opened OrderUnits
  import opened OrderTheorems

  lemma SweepProbeEmpty(c: Config, s: State, o: OrderId, k: nat, oc: Outcome, s': State)
    requires o in s.places && s.places[o].pc == Sweep(k) && NonNegative(s.stock) && s' == StepOfPlace(c, s, o, oc)
    ensures o in s'.places && s'.places[o] == s.places[o].(pc := s'.places[o].pc)
    ensures s'.places[o].pc in {SoldOut, AfterProbe(c, k)} || (s'.places[o].pc.Mark? && o in s'.hist.wins)
    ensures oc.Ok? && !s'.places[o].pc.Mark? ==>
      && s'.places[o].pc == AfterProbe(c, k)
      && At(s'.stock, Probe(s.places[o].sku, Home(c, s.places[o].user), k, c.shards)) == 0
  {
    assert s' == SweepStep(c, s, o, k, oc);
  }

  /** How far a sweep has come; a sweep that found nothing is about to set the latch. */
  function Probed(c: Config, pc: PlacePc): nat {
    match pc
    case Sweep(offset) => offset
    case Latch => c.shards
    case _ => 0
  }

  ghost predicate SweptEmpty(c: Config, s: State, o: OrderId)
    requires o in s.places
  {
    var p := s.places[o];
    forall d: nat | d < Probed(c, p.pc) :: At(s.stock, Probe(p.sku, Home(c, p.user), d, c.shards)) == 0
  }

  /** No step of the run puts a unit of the SKU back. */
  ghost predicate NoRefundsOf(c: Config, s: State, acts: seq<Action>, sku: Sku) {
    forall k | 0 <= k < |acts| :: !RefundsSku(c, Run(c, s, acts[..k]), acts[k], sku)
  }

  predicate RefundsSku(c: Config, s: State, a: Action, sku: Sku) {
    RefundOf(c, s, a).Some? && RefundOf(c, s, a).value.key.sku == sku
  }

  lemma SweepStepCovers(c: Config, s: State, a: Action, o: OrderId, s': State)
    requires Inv(c, s) && s' == Apply(c, s, a) && o in s.places
    requires s.places[o].pc.Sweep? || s.places[o].pc.Latch?
    requires SweptEmpty(c, s, o) && !RefundsSku(c, s, a, s.places[o].sku)
    requires a.PlaceStep? && a.order == o ==> a.oc == Ok && s.places[o].pc.Sweep?
    ensures o in s'.places && s'.places[o] == s.places[o].(pc := s'.places[o].pc)
    ensures (s'.places[o].pc.Sweep? || s'.places[o].pc.Latch?) ==> SweptEmpty(c, s', o)
  {
    if a.PlaceStep? && a.order == o {
      SweepProbeEmpty(c, s, o, s.places[o].pc.offset, Ok, s');
    } else {
      OthersKeepPlace(c, s, a, o, s');
    }
    forall d: nat | (s'.places[o].pc.Sweep? || s'.places[o].pc.Latch?) && d < Probed(c, s'.places[o].pc)
      ensures At(s'.stock, Probe(s.places[o].sku, Home(c, s.places[o].user), d, c.shards)) == 0
    {
      var key := Probe(s.places[o].sku, Home(c, s.places[o].user), d, c.shards);
      NotRaised(c, s, a, key, s');
    }
  }

  lemma NotRaised(c: Config, s: State, a: Action, key: InvKey, s': State)
    requires Inv(c, s) && s' == Apply(c, s, a) && !RefundsSku(c, s, a, key.sku)
    ensures 0 <= At(s'.stock, key) <= At(s.stock, key)
  {
    StepKeeps(c, s, a, s');
    StepMovesUnits(c, s, a, s');
  }

  /** Every step of the call itself is error-free and ends within the sweep. */
  ghost predicate SweepRuns(c: Config, s: State, acts: seq<Action>, o: OrderId) {
    forall k | 0 <= k < |acts| && acts[k].PlaceStep? && acts[k].order == o ::
      acts[k].oc == Ok && var t := Run(c, s, acts[..k]); o in t.places && t.places[o].pc.Sweep?
  }

  lemma PrefixRuns(c: Config, s: State, acts: seq<Action>, o: OrderId, sku: Sku)
    requires SweepRuns(c, s, acts, o) && NoRefundsOf(c, s, acts, sku) && acts != []
    ensures var before := acts[..|acts| - 1]; SweepRuns(c, s, before, o) && NoRefundsOf(c, s, before, sku)
  {
    var before := acts[..|acts| - 1];
    forall k | 0 <= k < |before|
      ensures before[k] == acts[k] && Run(c, s, before[..k]) == Run(c, s, acts[..k])
    {
      assert before[..k] == acts[..k] && acts[k] == before[k];
    }
  }

  lemma {:induction false} SweepCoversPrefix(c: Config, s: State, acts: seq<Action>, o: OrderId)
    requires Inv(c, s) && o in s.places && s.places[o].pc == Sweep(0)
    requires SweepRuns(c, s, acts, o) && NoRefundsOf(c, s, acts, s.places[o].sku)
    ensures var t := Run(c, s, acts);
      && o in t.places && t.places[o] == s.places[o].(pc := t.places[o].pc)
      && (t.places[o].pc.Sweep? || t.places[o].pc.Latch? ==> SweptEmpty(c, t, o))
  {
    if acts != [] {
      var n := |acts| - 1;
      var before, a := acts[..n], acts[n];
      PrefixRuns(c, s, acts, o, s.places[o].sku);
      SweepCoversPrefix(c, s, before, o);
      RunKeeps(c, s, before);
      var mid, t := Run(c, s, before), Run(c, s, acts);
      assert !RefundsSku(c, Run(c, s, acts[..n]), acts[n], s.places[o].sku);
      if mid.places[o].pc.Sweep? || mid.places[o].pc.Latch? {
        SweepStepCovers(c, mid, a, o, t);
      } else {
        OthersKeepPlace(c, mid, a, o, t);
      }
    }
  }

  /** If no refund of the SKU and none of its own Redis errors falls into a sweep, then
      whatever other calls do meanwhile, a sweep that finds nothing ends with every shard of
      the SKU at 0 when it goes on to set the sold-out latch. */
  lemma SweepCoverage(c: Config, s: State, acts: seq<Action>, o: OrderId, i: nat, t: State)
    requires Inv(c, s) && o in s.places && s.places[o].pc == Sweep(0)
    requires t == Run(c, s, acts) && SweepRuns(c, s, acts, o) && NoRefundsOf(c, s, acts, s.places[o].sku)
    requires o in t.places && t.places[o].pc == Latch && i < c.shards
    ensures At(t.stock, Shard(s.places[o].sku, i)) == 0
  {
    SweepCoversPrefix(c, s, acts, o);
    LatchedSweepIsEmpty(c, t, o, i);
  }

  lemma LatchedSweepIsEmpty(c: Config, t: State, o: OrderId, i: nat)
    requires o in t.places && t.places[o].pc == Latch && SweptEmpty(c, t, o) && i < c.shards
    ensures At(t.stock, Shard(t.places[o].sku, i)) == 0
  {
    var p := t.places[o];
    var d := ProbeCovers(Home(c, p.user), c.shards, i);
    assert Probe(p.sku, Home(c, p.user), d, c.shards) == Shard(p.sku, i);
  }

  // ---- when exactly the latch is set over stock

  lemma {:induction false} WinsStay(c: Config, s: State, acts: seq<Action>, o: OrderId)
    requires Inv(c, s) && o in s.hist.wins
    ensures o in Run(c, s, acts).hist.wins
  {
    if acts != [] {
      var before := acts[..|acts| - 1];
      WinsStay(c, s, before, o);
      RunKeeps(c, s, before);
      var mid, t := Run(c, s, before), Run(c, s, acts);
      StepKeeps(c, mid, acts[|acts| - 1], t);
      assert Evolves(mid.now, Look(mid, o), Look(t, o));
      assert Look(mid, o).win.Some? && Look(t, o).win == Find(t.hist.wins, o);
    }
  }

  /** Step `k` of the run is the call's probe at `offset`. */
  ghost predicate ProbesAt(c: Config, s: State, acts: seq<Action>, o: OrderId, offset: nat, k: nat) {
    && k < |acts| && acts[k].PlaceStep? && acts[k].order == o
    && var t := Run(c, s, acts[..k]);
       o in t.places && t.places[o].pc == Sweep(offset)
  }

  lemma LatchIsUnwon(c: Config, s: State, later: seq<Action>, o: OrderId, t: State)
    requires Inv(c, s) && t == Run(c, s, later) && o in t.places && t.places[o].pc == Latch
    ensures o !in s.hist.wins
  {
    RunKeeps(c, s, later);
    assert OrderInv(c, t, o);
    assert Look(t, o).place == Some(t.places[o]);
    assert Look(t, o).win == Find(t.hist.wins, o) == None;
    if o in s.hist.wins { WinsStay(c, s, later, o); }
  }

  /** What is in a shard when the call comes to its latch: what its probe left there (nothing,
      if the reply arrived), plus what was put back since, less what was taken since. */
  lemma ShardAtLatch(c: Config, s: State, o: OrderId, offset: nat, oc: Outcome, key: InvKey,
                     s1: State, later: seq<Action>, t: State)
    requires Inv(c, s) && o in s.places && s.places[o].pc == Sweep(offset) && s1 == Apply(c, s, PlaceStep(o, oc))
    requires key == Probe(s.places[o].sku, Home(c, s.places[o].user), offset, c.shards)
    requires t == Run(c, s1, later) && o in t.places && t.places[o].pc == Latch
    ensures At(t.stock, key) == At(s1.stock, key) + Returned(c, s1, later, key) - Taken(c, s1, later, key)
    ensures oc.Ok? ==> At(s1.stock, key) == 0
  {
    StepKeeps(c, s, PlaceStep(o, oc), s1);
    ShardAccount(c, s1, later, key);
    SweepProbeEmpty(c, s, o, offset, oc, s1);
    LatchIsUnwon(c, s1, later, o, t);
  }

  /** The call's probe left something, or more was put back into its shard since than was
      taken from it. */
  ghost predicate Refilled(c: Config, s: State, acts: seq<Action>, k: nat, key: InvKey) {
    && k < |acts|
    && var s1, later := Run(c, s, acts[..k + 1]), acts[k + 1..];
       At(s1.stock, key) + Returned(c, s1, later, key) > Taken(c, s1, later, key)
  }

  lemma NextOfRun(c: Config, s: State, acts: seq<Action>, k: nat)
    requires k < |acts|
    ensures Run(c, s, acts[..k + 1]) == Apply(c, Run(c, s, acts[..k]), acts[k])
  {
    assert acts[..k + 1] == acts[..k] + [acts[k]];
    RunAppend(c, s, acts[..k], acts[k]);
  }

  lemma RestOfRun(c: Config, s: State, acts: seq<Action>, k: nat)
    requires k < |acts|
    ensures Run(c, s, acts) == Run(c, Run(c, s, acts[..k + 1]), acts[k + 1..])
  {
    assert acts == acts[..k + 1] + acts[k + 1..];
    RunConcat(c, s, acts[..k + 1], acts[k + 1..]);
  }

  lemma RefilledIff(c: Config, s: State, acts: seq<Action>, o: OrderId, offset: nat, k: nat, key: InvKey, t: State)
    requires Inv(c, s) && o in s.places && ProbesAt(c, s, acts, o, offset, k)
    requires t == Run(c, s, acts) && o in t.places && t.places[o].pc == Latch
    requires key == Probe(s.places[o].sku, Home(c, s.places[o].user), offset, c.shards)
    ensures At(t.stock, key) > 0 <==> Refilled(c, s, acts, k, key)
  {
    var mid, s1 := Run(c, s, acts[..k]), Run(c, s, acts[..k + 1]);
    NextOfRun(c, s, acts, k);
    RestOfRun(c, s, acts, k);
    RunKeeps(c, s, acts[..k]);
    PlaceStays(c, s, acts[..k], o);
    ShardAtLatch(c, mid, o, offset, acts[k].oc, key, s1, acts[k + 1..], t);
  }

  /** Some step of the run is the call's probe at `offset`. */
  ghost predicate ProbedIn(c: Config, s: State, acts: seq<Action>, o: OrderId, offset: nat) {
    exists k: nat :: ProbesAt(c, s, acts, o, offset, k)
  }

  lemma ProbedInPrefix(c: Config, s: State, acts: seq<Action>, o: OrderId, offset: nat)
    requires acts != [] && ProbedIn(c, s, acts[..|acts| - 1], o, offset)
    ensures ProbedIn(c, s, acts, o, offset)
  {
    var before := acts[..|acts| - 1];
    var k: nat :| ProbesAt(c, s, before, o, offset, k);
    assert before[..k] == acts[..k] && before[k] == acts[k];
    assert ProbesAt(c, s, acts, o, offset, k);
  }

  /** Only a probe brings a sweep further, and by one shard. */
  lemma ProbesOneFurther(c: Config, s: State, a: Action, o: OrderId, s': State)
    requires Inv(c, s) && s' == Apply(c, s, a) && o in s.places
    ensures o in s'.places
    ensures var before, after := Probed(c, s.places[o].pc), Probed(c, s'.places[o].pc);
      after <= before || (a.PlaceStep? && a.order == o && s.places[o].pc == Sweep(before) && after == before + 1)
  {
    if a.PlaceStep? && a.order == o {
      assert OrderInv(c, s, o) && Look(s, o).place == Some(s.places[o]);
      if s.places[o].pc.Sweep? {
        SweepProbeEmpty(c, s, o, s.places[o].pc.offset, a.oc, s');
      } else {
        LeavesSweep(c, s, o, a.oc, s');
      }
    } else {
      OthersKeepPlace(c, s, a, o, s');
    }
  }

  lemma LeavesSweep(c: Config, s: State, o: OrderId, oc: Outcome, s': State)
    requires o in s.places && !s.places[o].pc.Sweep? && s' == StepOfPlace(c, s, o, oc)
    ensures o in s'.places && (Probed(c, s'.places[o].pc) == 0 || s' == s)
  {
    var pc := s.places[o].pc;
    if pc.Refunding? {
      RefundingLeavesSweep(c, s, o, oc);
    } else if pc.Mark? || pc.Publish? {
      ReservedLeavesSweep(c, s, o, oc);
    } else if pc.CheckLatch? || pc.Latch? {
      LatchLeavesSweep(c, s, o, oc);
    }
  }

  lemma RefundingLeavesSweep(c: Config, s: State, o: OrderId, oc: Outcome)
    requires o in s.places && s.places[o].pc.Refunding?
    ensures var t := StepOfPlace(c, s, o, oc); o in t.places && Probed(c, t.places[o].pc) == 0
  {
  }

  lemma ReservedLeavesSweep(c: Config, s: State, o: OrderId, oc: Outcome)
    requires o in s.places && (s.places[o].pc.Mark? || s.places[o].pc.Publish?)
    ensures var t := StepOfPlace(c, s, o, oc); o in t.places && Probed(c, t.places[o].pc) == 0
  {
  }

  lemma LatchLeavesSweep(c: Config, s: State, o: OrderId, oc: Outcome)
    requires o in s.places && (s.places[o].pc.CheckLatch? || s.places[o].pc.Latch?)
    ensures var t := StepOfPlace(c, s, o, oc); o in t.places && Probed(c, t.places[o].pc) == 0
  {
  }

  /** A call that has come this far, and in particular one at its latch, has probed every shard
      before that in a step of the run. */
  lemma {:induction false} ProbesMade(c: Config, s: State, acts: seq<Action>, o: OrderId, offset: nat)
    requires Inv(c, s) && o in s.places && s.places[o].pc == Sweep(0)
    ensures var t := Run(c, s, acts);
      o in t.places && (offset < Probed(c, t.places[o].pc) ==> ProbedIn(c, s, acts, o, offset))
  {
    if acts != [] {
      var n := |acts| - 1;
      var before := acts[..n];
      ProbesMade(c, s, before, o, offset);
      RunKeeps(c, s, before);
      var mid, t := Run(c, s, before), Run(c, s, acts);
      ProbesOneFurther(c, mid, acts[n], o, t);
      if offset < Probed(c, mid.places[o].pc) {
        ProbedInPrefix(c, s, acts, o, offset);
      } else if offset < Probed(c, t.places[o].pc) {
        assert ProbesAt(c, s, acts, o, offset, n);
      }
    }
  }

  /** A shard was refilled behind the call's probe of it. */
  ghost predicate RefilledBehind(c: Config, s: State, acts: seq<Action>, o: OrderId, offset: nat)
    requires o in s.places
  {
    var key := Probe(s.places[o].sku, Home(c, s.places[o].user), offset, c.shards);
    exists k: nat :: ProbesAt(c, s, acts, o, offset, k) && Refilled(c, s, acts, k, key)
  }

  lemma RefilledBehindIff(c: Config, s: State, acts: seq<Action>, o: OrderId, offset: nat, t: State)
    requires Inv(c, s) && o in s.places && s.places[o].pc == Sweep(0) && offset < c.shards
    requires t == Run(c, s, acts) && o in t.places && t.places[o].pc == Latch
    ensures At(t.stock, Probe(s.places[o].sku, Home(c, s.places[o].user), offset, c.shards)) > 0 <==>
            RefilledBehind(c, s, acts, o, offset)
  {
    var key := Probe(s.places[o].sku, Home(c, s.places[o].user), offset, c.shards);
    ProbesMade(c, s, acts, o, offset);
    forall k: nat | ProbesAt(c, s, acts, o, offset, k)
      ensures At(t.stock, key) > 0 <==> Refilled(c, s, acts, k, key)
    {
      RefilledIff(c, s, acts, o, offset, k, key, t);
    }
  }

  /** A call that comes from the start of its sweep to its latch is about to latch a SKU that
      still has stock exactly when some shard was refilled behind its probe: where the probe's
      reply arrived it left nothing, so it takes a refund; a probe with an error may have left
      units. */
  lemma LatchesOverStockIff(c: Config, s: State, acts: seq<Action>, o: OrderId, t: State)
    requires Inv(c, s) && o in s.places && s.places[o].pc == Sweep(0)
    requires t == Run(c, s, acts) && o in t.places && t.places[o].pc == Latch
    ensures Total(t.stock, s.places[o].sku, c.shards) > 0 <==>
            exists d :: 0 <= d < c.shards && RefilledBehind(c, s, acts, o, d)
  {
    var p := s.places[o];
    RunKeeps(c, s, acts);
    forall d | 0 <= d < c.shards
      ensures At(t.stock, Probe(p.sku, Home(c, p.user), d, c.shards)) > 0 <==> RefilledBehind(c, s, acts, o, d)
    {
      RefilledBehindIff(c, s, acts, o, d, t);
    }
    TotalPositiveIff(t.stock, p.sku, Home(c, p.user), c.shards);
  }

  lemma {:induction false} PlaceStays(c: Config, s: State, acts: seq<Action>, o: OrderId)
    requires Inv(c, s) && o in s.places
    ensures var t := Run(c, s, acts); o in t.places && t.places[o] == s.places[o].(pc := t.places[o].pc)
  {
    if acts != [] {
      var before := acts[..|acts| - 1];
      PlaceStays(c, s, before, o);
      RunKeeps(c, s, before);
      var mid, t := Run(c, s, before), Run(c, s, acts);
      StepKeeps(c, mid, acts[|acts| - 1], t);
      assert Evolves(mid.now, Look(mid, o), Look(t, o));
      assert Look(mid, o).place == Some(mid.places[o]) && Look(t, o).place == Find(t.places, o);
    }
  }

  lemma TotalPositiveIff(stock: Stock, sku: Sku, home: nat, n: nat)
    requires n > 0 && NonNegative(stock)
    ensures Total(stock, sku, n) > 0 <==> exists d :: 0 <= d < n && At(stock, Probe(sku, home, d, n)) > 0
  {
    TotalNonNegative(stock, sku, n);
    if forall d | 0 <= d < n :: At(stock, Probe(sku, home, d, n)) <= 0 {
      forall i: nat | i < n
        ensures At(stock, Shard(sku, i)) == 0
      {
        var d := ProbeCovers(home, n, i);
        assert Probe(sku, home, d, n) == Shard(sku, i);
      }
      TotalZero(stock, sku, n);
    }
  }
}
