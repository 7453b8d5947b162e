/** A call of ProcessTimeout that outlives its guard, under the guard of another: whether it can
    still change rows, stock or reservations (internal/order/timeout.go). */
module OrderStale {
  import opened Common
  import opened Inventory
  import opened OrderModel
  import opened OrderInvariants
  import opened OrderSteps
  import opened OrderTheorems
  import opened OrderGuard

  /** The call is past the guard, and either has its UPDATE before it and the order can come due
      while the present guard lives, or its release with the unit still held. */
  predicate CanAct(s: State, o: OrderId, job: Job) {
    Inside(job, o) &&
    if job.tpc.Restock? then job.tpc.cpc.Release? && Holds(s.cells, s.now, o)
    else !job.tpc.Announce? && o in s.guards && CanComeDue(s, o, s.guards[o])
  }

  predicate CanComeDue(s: State, o: OrderId, before: int) {
    o in s.rows && s.rows[o].status == Pending && s.rows[o].expires < before
  }

  ghost predicate NobodyCanAct(s: State, o: OrderId, i: int) {
    forall j | 0 <= j < |s.jobs| && j != i :: !CanAct(s, o, s.jobs[j])
  }

  /** Step `oc` of job `j`, for the order and within its guard's life, changes the stores. */
  ghost predicate ActsAt(c: Config, s: State, o: OrderId, acts: seq<Action>, j: nat, oc: Outcome)
    requires o in s.guards
  {
    var t := Run(c, s, acts);
    && t.now < s.guards[o] && j < |t.jobs| && t.jobs[j].Timeout? && t.jobs[j].order == o
    && !SameStores(t, TimeoutStep(c, t, j, oc))
  }

  // ---- a call that cannot act will not

  /** What a call relies on: the order's row stays or is settled, and a cell that does not hold
      the unit of a cancelled order never does again. */
  lemma OrderStaysOut(c: Config, s: State, a: Action, o: OrderId, s': State)
    requires Inv(c, s) && s' == Apply(c, s, a) && o in s.rows
    ensures o in s'.rows && (s'.rows[o].status == Pending ==> s'.rows[o] == s.rows[o])
    ensures !Holds(s.cells, s.now, o) ==> !Holds(s'.cells, s'.now, o)
  {
    StepKeeps(c, s, a, s');
    assert Evolves(s.now, Look(s, o), Look(s', o));
    assert OrderInv(c, s, o);
    assert Look(s, o).row.Some? && Look(s, o).event.Some? && Look(s, o).place.Some?;
    if !Holds(s.cells, s.now, o) { SettledStep(c, s, a, o, s'); }
  }

  predicate SameGuard(s: State, s': State, o: OrderId) {
    o in s.guards && o in s'.guards && s'.guards[o] == s.guards[o]
  }

  /** A job that has not moved itself. */
  lemma StaysUnable(c: Config, s: State, a: Action, o: OrderId, job: Job, s': State)
    requires Inv(c, s) && s' == Apply(c, s, a) && o in s.rows && !CanAct(s, o, job) && SameGuard(s, s', o)
    ensures !CanAct(s', o, job)
  {
    OrderStaysOut(c, s, a, o, s');
  }

  /** A job that has. */
  lemma MovesUnable(c: Config, s: State, j: nat, oc: Outcome, o: OrderId, s': State)
    requires j < |s.jobs| && s.jobs[j].Timeout? && Guarded(s, o) && s' == TimeoutStep(c, s, j, oc)
    requires o in s.rows && !CanAct(s, o, s.jobs[j])
    ensures j < |s'.jobs| && !CanAct(s', o, s'.jobs[j])
  {
    TimeoutStepRespectsGuard(c, s, j, oc, o, s');
    if Inside(s.jobs[j], o) {
      var Timeout(x, pc, rest) := s.jobs[j];
      if pc.Cancel? {
        assert s' == CancelStep(c, s, j, o, pc.user, pc.sku, rest, oc);
        UpdateMisses(c, s, j, o, pc.user, pc.sku, rest, oc, s');
      } else {
        OthersMoveOn(c, s, j, oc, o, s');
      }
    }
  }

  lemma UpdateMisses(c: Config, s: State, j: nat, o: OrderId, user: UserId, sku: Sku, rest: seq<OrderId>, oc: Outcome, s': State)
    requires j < |s.jobs| && !Due(s, o) && s' == CancelStep(c, s, j, o, user, sku, rest, oc)
    ensures j < |s'.jobs| && !Inside(s'.jobs[j], o)
  {
  }

  lemma OthersMoveOn(c: Config, s: State, j: nat, oc: Outcome, o: OrderId, s': State)
    requires j < |s.jobs| && Inside(s.jobs[j], o) && !s.jobs[j].tpc.Cancel? && s' == TimeoutStep(c, s, j, oc)
    requires !CanAct(s, o, s.jobs[j])
    ensures j < |s'.jobs| && !CanAct(s', o, s'.jobs[j])
  {
    if s.jobs[j].tpc.Get? {
      GetMovesOn(c, s, j, oc, s');
    } else {
      ReleaseMovesOn(c, s, j, oc, s');
    }
  }

  lemma GetMovesOn(c: Config, s: State, j: nat, oc: Outcome, s': State)
    requires j < |s.jobs| && s.jobs[j].Timeout? && s.jobs[j].tpc.Get? && s' == TimeoutStep(c, s, j, oc)
    ensures s'.rows == s.rows && s'.guards == s.guards && j < |s'.jobs|
    ensures s'.jobs[j] == NextTimeout(s.jobs[j].rest) || (s'.jobs[j].Timeout? && s'.jobs[j].tpc.Cancel?)
  {
  }

  lemma ReleaseMovesOn(c: Config, s: State, j: nat, oc: Outcome, s': State)
    requires j < |s.jobs| && s.jobs[j].Timeout? && (s.jobs[j].tpc.Restock? || s.jobs[j].tpc.Announce?)
    requires s' == TimeoutStep(c, s, j, oc)
    ensures j < |s'.jobs|
    ensures s'.jobs[j] == NextTimeout(s.jobs[j].rest)
            || (s'.jobs[j].Timeout? && (s'.jobs[j].tpc.Announce? || (s'.jobs[j].tpc.Restock? && s'.jobs[j].tpc.cpc.Unlatch?)))
  {
  }

  lemma JobStepUnable(c: Config, s: State, a: Action, o: OrderId, i: int, s': State)
    requires Inv(c, s) && Guarded(s, o) && o in s.rows && NobodyCanAct(s, o, i)
    requires a.JobStep? && a.job < |s.jobs| && s' == Apply(c, s, a)
    ensures NobodyCanAct(s', o, i) && SameGuard(s, s', o)
  {
    JobStepKeeps(c, s, a.job, a.oc, a.page, s');
    if s.jobs[a.job].Timeout? {
      TimeoutStepRespectsGuard(c, s, a.job, a.oc, o, s');
      if a.job != i { MovesUnable(c, s, a.job, a.oc, o, s'); }
    } else {
      OtherJobStepRespectsGuard(c, s, a.job, a.oc, a.page, o, s');
    }
    forall j | 0 <= j < |s'.jobs| && j != i && j != a.job
      ensures !CanAct(s', o, s'.jobs[j])
    {
      StaysUnable(c, s, a, o, s.jobs[j], s');
    }
  }

  lemma StepUnable(c: Config, s: State, a: Action, o: OrderId, i: int, s': State)
    requires Inv(c, s) && Guarded(s, o) && o in s.rows && NobodyCanAct(s, o, i)
    requires s' == Apply(c, s, a)
    ensures NobodyCanAct(s', o, i) && SameGuard(s, s', o)
  {
    if a.JobStep? && a.job < |s.jobs| {
      JobStepUnable(c, s, a, o, i, s');
    } else {
      KeepsJobs(c, s, a, s');
      forall j | 0 <= j < |s'.jobs| && j != i
        ensures !CanAct(s', o, s'.jobs[j])
      {
        if j < |s.jobs| { StaysUnable(c, s, a, o, s.jobs[j], s'); }
      }
    }
  }

  lemma KeepsJobs(c: Config, s: State, a: Action, s': State)
    requires Inv(c, s) && s' == Apply(c, s, a) && !(a.JobStep? && a.job < |s.jobs|)
    ensures s'.guards == s.guards && s.jobs <= s'.jobs && |s'.jobs| <= |s.jobs| + 1
    ensures |s'.jobs| > |s.jobs| && s'.jobs[|s.jobs|].Timeout? ==> s'.jobs[|s.jobs|].tpc.Guard?
  {
    if a.PlaceStep? {
      if a.order in s.places { PlaceStepKeeps(c, s, a.order, a.oc, s'); }
    } else if !a.JobStep? {
      EnvironmentKeepsJobs(c, s, a, s');
      EnvironmentKeepsGuards(c, s, a, s');
    }
  }

  lemma {:induction false} RunUnable(c: Config, s: State, acts: seq<Action>, o: OrderId, i: int)
    requires Inv(c, s) && Guarded(s, o) && o in s.rows && NobodyCanAct(s, o, i) && Run(c, s, acts).now < s.guards[o]
    ensures var t := Run(c, s, acts); NobodyCanAct(t, o, i) && SameGuard(s, t, o) && o in t.rows
  {
    if acts != [] {
      var n := |acts| - 1;
      var mid, t := Run(c, s, acts[..n]), Run(c, s, acts);
      RunKeeps(c, s, acts[..n]);
      StepKeeps(c, mid, acts[n], t);
      RunUnable(c, s, acts[..n], o, i);
      StepUnable(c, mid, acts[n], o, i, t);
      OrderStaysOut(c, mid, acts[n], o, t);
    }
  }

  lemma UnableDoesNothing(c: Config, s: State, o: OrderId, i: int, acts: seq<Action>, j: nat, oc: Outcome)
    requires Inv(c, s) && Guarded(s, o) && o in s.rows && NobodyCanAct(s, o, i) && j != i
    ensures !ActsAt(c, s, o, acts, j, oc)
  {
    var t := Run(c, s, acts);
    if t.now < s.guards[o] && j < |t.jobs| && t.jobs[j].Timeout? && t.jobs[j].order == o {
      RunUnable(c, s, acts, o, i);
      TimeoutStepActsIff(c, t, j, oc, TimeoutStep(c, t, j, oc));
      assert !CanAct(t, o, t.jobs[j]);
    }
  }

  // ---- a call that can act may

  lemma WaitsAndCancels(c: Config, s: State, o: OrderId, j: nat, acts: seq<Action>, t: State, user: UserId, sku: Sku, to: int)
    requires Guarded(s, o) && t == Run(c, s, acts) && j < |t.jobs| && t.jobs[j].Timeout? && t.jobs[j].order == o
    requires t.jobs[j].tpc == Cancel(user, sku) && t.now <= to < s.guards[o]
    requires o in t.rows && t.rows[o].status == Pending && t.rows[o].expires <= to
    ensures ActsAt(c, s, o, acts + [Advance(to)], j, Ok)
  {
    RunAppend(c, s, acts, Advance(to));
    Waits(c, t, to);
    UpdateHits(c, t.(now := to), j);
  }

  lemma Waits(c: Config, t: State, to: int)
    requires t.now <= to
    ensures Apply(c, t, Advance(to)) == t.(now := to)
  {
  }

  lemma UpdateHits(c: Config, u: State, j: nat)
    requires j < |u.jobs| && u.jobs[j].Timeout? && u.jobs[j].tpc.Cancel? && Due(u, u.jobs[j].order)
    ensures !SameStores(u, TimeoutStep(c, u, j, Ok))
  {
    TimeoutStepActsIff(c, u, j, Ok, TimeoutStep(c, u, j, Ok));
  }

  lemma GetsRow(c: Config, s: State, o: OrderId, j: nat, t: State)
    requires j < |s.jobs| && s.jobs[j].Timeout? && s.jobs[j].order == o && s.jobs[j].tpc.Get? && o in s.rows
    requires t == Run(c, s, [JobStep(j, Ok, [])])
    ensures t == s.(jobs := s.jobs[j := Timeout(o, Cancel(s.rows[o].user, s.rows[o].sku), s.jobs[j].rest)])
  {
    assert [JobStep(j, Ok, [])][..0] == [];
    assert Run(c, s, []) == s;
  }

  lemma AbleActs(c: Config, s: State, o: OrderId, j: nat) returns (acts: seq<Action>)
    requires Guarded(s, o) && j < |s.jobs| && CanAct(s, o, s.jobs[j])
    ensures ActsAt(c, s, o, acts, j, Ok)
  {
    var pc := s.jobs[j].tpc;
    assert Run(c, s, []) == s;
    if pc.Restock? {
      acts := [];
      TimeoutStepActsIff(c, s, j, Ok, TimeoutStep(c, s, j, Ok));
    } else {
      var to := if s.now <= s.rows[o].expires then s.rows[o].expires else s.now;
      if pc.Cancel? {
        WaitsAndCancels(c, s, o, j, [], s, pc.user, pc.sku, to);
        acts := [] + [Advance(to)];
      } else {
        var t := Run(c, s, [JobStep(j, Ok, [])]);
        GetsRow(c, s, o, j, t);
        WaitsAndCancels(c, s, o, j, [JobStep(j, Ok, [])], t, s.rows[o].user, s.rows[o].sku, to);
        acts := [JobStep(j, Ok, [])] + [Advance(to)];
      }
    }
  }

  /** While the guard lives, another call than that of job `i` changes rows, stock or reservations
      for the order in some continuation exactly when one is now past the guard with an UPDATE
      that can still find the order due, or a release that finds the unit held. */
  lemma OthersActIff(c: Config, s: State, o: OrderId, i: int)
    requires Inv(c, s) && Guarded(s, o) && o in s.rows
    ensures (exists acts, j: nat, oc :: j != i && ActsAt(c, s, o, acts, j, oc)) <==>
            exists j | 0 <= j < |s.jobs| && j != i :: CanAct(s, o, s.jobs[j])
  {
    if j :| 0 <= j < |s.jobs| && j != i && CanAct(s, o, s.jobs[j]) {
      var acts := AbleActs(c, s, o, j);
    } else {
      forall acts, j: nat, oc | j != i
        ensures !ActsAt(c, s, o, acts, j, oc)
      {
        UnableDoesNothing(c, s, o, i, acts, j, oc);
      }
    }
  }
}
