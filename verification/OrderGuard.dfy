/** The duplicate guard `cancel:<order>` of ProcessTimeout: what it excludes, and what not. */
module OrderGuard {
  import opened Common
  import opened Inventory
  import opened OrderModel
  import opened OrderInvariants
  import opened OrderTheorems

  /** The call has passed the guard of order `o` and not finished with it. */
  predicate Inside(job: Job, o: OrderId) {
    job.Timeout? && job.order == o && !job.tpc.Guard?
  }

  /** The guard of `o` is live and no call but that of job `i` is past it. */
  ghost predicate Exclusive(s: State, o: OrderId, i: int) {
    Guarded(s, o) && forall j | 0 <= j < |s.jobs| && j != i :: !Inside(s.jobs[j], o)
  }

  /** A step of job `i` under a live guard: the guard stays, and nobody gets past it. */
  ghost predicate Respected(s: State, s': State, i: nat, o: OrderId)
    requires i < |s.jobs|
  {
    && o in s.guards && o in s'.guards && s'.guards[o] == s.guards[o]
    && i < |s'.jobs| && (Inside(s'.jobs[i], o) ==> Inside(s.jobs[i], o))
  }

  lemma EarlyTimeoutRespectsGuard(c: Config, s: State, i: nat, oc: Outcome, o: OrderId, s': State)
    requires i < |s.jobs| && s.jobs[i].Timeout? && Guarded(s, o) && s' == TimeoutStep(c, s, i, oc)
    requires s.jobs[i].tpc.Guard? || s.jobs[i].tpc.Get?
    ensures Respected(s, s', i, o)
  {
  }

  lemma LateTimeoutRespectsGuard(c: Config, s: State, i: nat, oc: Outcome, o: OrderId, s': State)
    requires i < |s.jobs| && s.jobs[i].Timeout? && Guarded(s, o) && s' == TimeoutStep(c, s, i, oc)
    requires s.jobs[i].tpc.Restock? || s.jobs[i].tpc.Announce?
    ensures Respected(s, s', i, o)
  {
  }

  lemma TimeoutStepRespectsGuard(c: Config, s: State, i: nat, oc: Outcome, o: OrderId, s': State)
    requires i < |s.jobs| && s.jobs[i].Timeout? && Guarded(s, o) && s' == TimeoutStep(c, s, i, oc)
    ensures Respected(s, s', i, o)
  {
    var pc := s.jobs[i].tpc;
    if pc.Guard? || pc.Get? {
      EarlyTimeoutRespectsGuard(c, s, i, oc, o, s');
    } else if !pc.Cancel? {
      LateTimeoutRespectsGuard(c, s, i, oc, o, s');
    } else {
      assert s' == CancelStep(c, s, i, s.jobs[i].order, pc.user, pc.sku, s.jobs[i].rest, oc);
    }
  }

  predicate HandleOrDone(job: Job) { job.Handle? || job.Finished? }

  lemma FlipRespectsGuard(s: State, i: nat, ev: Event, expires: int, oc: Outcome, s': State)
    requires i < |s.jobs| && s' == FlipStep(s, i, ev, expires, oc)
    ensures s'.guards == s.guards && i < |s'.jobs| && HandleOrDone(s'.jobs[i])
  {
  }

  lemma ArmRespectsGuard(s: State, i: nat, ev: Event, expires: int, attempt: nat, oc: Outcome, s': State)
    requires i < |s.jobs| && s' == ArmStep(s, i, ev, expires, attempt, oc)
    ensures s'.guards == s.guards && i < |s'.jobs| && HandleOrDone(s'.jobs[i])
  {
  }

  lemma InsertRespectsGuard(c: Config, s: State, i: nat, ev: Event, expires: int, oc: Outcome, s': State)
    requires i < |s.jobs| && s' == InsertStep(c, s, i, ev, expires, oc)
    ensures s'.guards == s.guards && i < |s'.jobs| && HandleOrDone(s'.jobs[i])
  {
  }

  lemma HandleRespectsGuard(c: Config, s: State, i: nat, oc: Outcome, s': State)
    requires i < |s.jobs| && s.jobs[i].Handle? && s' == HandleStep(c, s, i, oc)
    ensures s'.guards == s.guards && i < |s'.jobs| && HandleOrDone(s'.jobs[i])
  {
    var Handle(ev, expires, pc) := s.jobs[i];
    if pc.Insert? {
      InsertRespectsGuard(c, s, i, ev, expires, oc, s');
    } else if pc.Flip? {
      FlipRespectsGuard(s, i, ev, expires, oc, s');
    } else {
      ArmRespectsGuard(s, i, ev, expires, pc.attempt, oc, s');
    }
  }

  lemma ReconcileRespectsGuard(c: Config, s: State, i: nat, oc: Outcome, page: seq<OrderId>, o: OrderId, s': State)
    requires i < |s.jobs| && (s.jobs[i].Lead? || s.jobs[i].Fetch?) && s' == StepOfJob(c, s, i, oc, page)
    ensures s'.guards == s.guards && i < |s'.jobs| && !Inside(s'.jobs[i], o)
  {
  }

  lemma DlqRespectsGuard(c: Config, s: State, i: nat, oc: Outcome, page: seq<OrderId>, s': State)
    requires i < |s.jobs| && s.jobs[i].Dlq? && s' == StepOfJob(c, s, i, oc, page)
    ensures s'.guards == s.guards && i < |s'.jobs| && (s'.jobs[i].Dlq? || s'.jobs[i].Finished?)
  {
  }

  lemma OtherJobStepRespectsGuard(c: Config, s: State, i: nat, oc: Outcome, page: seq<OrderId>, o: OrderId, s': State)
    requires i < |s.jobs| && !s.jobs[i].Timeout? && s' == StepOfJob(c, s, i, oc, page)
    ensures s'.guards == s.guards
    ensures i < |s'.jobs| && !Inside(s'.jobs[i], o)
  {
    if s.jobs[i].Handle? {
      HandleRespectsGuard(c, s, i, oc, s');
    } else if s.jobs[i].Dlq? {
      DlqRespectsGuard(c, s, i, oc, page, s');
    } else if !s.jobs[i].Finished? {
      ReconcileRespectsGuard(c, s, i, oc, page, o, s');
    }
  }

  lemma ExclusiveStep(c: Config, s: State, a: Action, o: OrderId, i: int, s': State)
    requires Inv(c, s) && Exclusive(s, o, i) && s' == Apply(c, s, a) && s'.now < s.guards[o]
    ensures Exclusive(s', o, i) && s'.guards[o] == s.guards[o]
  {
    if a.PlaceStep? {
      if a.order in s.places {
        PlaceStepKeeps(c, s, a.order, a.oc, s');
      }
    } else if a.JobStep? {
      if a.job < |s.jobs| {
        JobStepKeeps(c, s, a.job, a.oc, a.page, s');
        if s.jobs[a.job].Timeout? {
          TimeoutStepRespectsGuard(c, s, a.job, a.oc, o, s');
        } else {
          OtherJobStepRespectsGuard(c, s, a.job, a.oc, a.page, o, s');
        }
      }
    } else {
      EnvironmentKeepsJobs(c, s, a, s');
      EnvironmentKeepsGuards(c, s, a, s');
    }
  }

  lemma {:induction false} ExclusiveRun(c: Config, s: State, acts: seq<Action>, o: OrderId, i: int)
    requires Inv(c, s) && Exclusive(s, o, i) && Run(c, s, acts).now < s.guards[o]
    ensures Exclusive(Run(c, s, acts), o, i) && Run(c, s, acts).guards[o] == s.guards[o]
  {
    if acts != [] {
      var before := acts[..|acts| - 1];
      RunKeeps(c, s, before);
      StepKeeps(c, Run(c, s, before), acts[|acts| - 1], Run(c, s, acts));
      ExclusiveRun(c, s, before, o, i);
      ExclusiveStep(c, Run(c, s, before), acts[|acts| - 1], o, i, Run(c, s, acts));
    }
  }

  /** A call takes the guard: from here on it is exclusive, whether or not its reply
      arrives, unless some other call got past an earlier guard of the same order. */
  lemma TakingTheGuard(c: Config, s: State, i: nat, oc: Outcome, o: OrderId, s': State)
    requires i < |s.jobs| && s.jobs[i].Timeout? && s.jobs[i].tpc.Guard? && s.jobs[i].order == o
    requires oc.TookEffect() && !Guarded(s, o) && s' == TimeoutStep(c, s, i, oc)
    ensures Guarded(s', o) && s'.guards[o] == s.now + 24 * 3600 * 1_000_000
    ensures Exclusive(s', o, i) <==> forall j | 0 <= j < |s.jobs| && j != i :: !Inside(s.jobs[j], o)
  {
    assert forall j | 0 <= j < |s.jobs| && j != i :: s'.jobs[j] == s.jobs[j];
  }

  /** The stores a timeout may change. */
  predicate SameStores(s: State, s': State) {
    s'.rows == s.rows && s'.stock == s.stock && s'.cells == s.cells
  }

  lemma QuietTimeoutStep(c: Config, s: State, j: nat, oc: Outcome, s': State)
    requires j < |s.jobs| && s.jobs[j].Timeout? && s' == TimeoutStep(c, s, j, oc)
    requires s.jobs[j].tpc.Guard? || s.jobs[j].tpc.Get? || s.jobs[j].tpc.Announce?
    ensures SameStores(s, s')
  {
  }

  lemma CancelActs(c: Config, s: State, j: nat, o: OrderId, user: UserId, sku: Sku, rest: seq<OrderId>,
                   oc: Outcome, s': State)
    requires j < |s.jobs| && s' == CancelStep(c, s, j, o, user, sku, rest, oc)
    ensures !SameStores(s, s') <==> oc.TookEffect() && Due(s, o)
  {
    if oc.TookEffect() && Due(s, o) {
      assert s'.rows[o].status != s.rows[o].status;
    }
  }

  lemma RestockActs(c: Config, s: State, j: nat, oc: Outcome, s': State)
    requires j < |s.jobs| && s.jobs[j].Timeout? && s' == TimeoutStep(c, s, j, oc) && s.jobs[j].tpc.Restock?
    ensures !SameStores(s, s') <==>
      oc.TookEffect() && s.jobs[j].tpc.cpc.Release? && Holds(s.cells, s.now, s.jobs[j].order)
  {
    var o := s.jobs[j].order;
    if oc.TookEffect() && s.jobs[j].tpc.cpc.Release? && Holds(s.cells, s.now, o) {
      assert s'.cells[o] != s.cells[o];
    }
  }

  /** When exactly one step of ProcessTimeout changes rows, stock or reservations. */
  lemma TimeoutStepActsIff(c: Config, s: State, j: nat, oc: Outcome, s': State)
    requires j < |s.jobs| && s.jobs[j].Timeout? && s' == TimeoutStep(c, s, j, oc)
    ensures var o, pc := s.jobs[j].order, s.jobs[j].tpc;
      !SameStores(s, s') <==>
      oc.TookEffect() && ((pc.Cancel? && Due(s, o)) || (pc.Restock? && pc.cpc.Release? && Holds(s.cells, s.now, o)))
  {
    var pc := s.jobs[j].tpc;
    if pc.Cancel? {
      CancelActs(c, s, j, s.jobs[j].order, pc.user, pc.sku, s.jobs[j].rest, oc, s');
    } else if pc.Restock? {
      RestockActs(c, s, j, oc, s');
    } else {
      QuietTimeoutStep(c, s, j, oc, s');
    }
  }

  /** Guard exclusivity: after a call took the guard while no other call was past it, and
      until the guard expires, every step that another call of ProcessTimeout makes for the
      order, from the consumer or the reconciler, leaves rows, stock and reservations
      alone, whatever became of the first call. */
  lemma GuardExcludesOthers(c: Config, s: State, acts: seq<Action>, o: OrderId, i: int,
                            t: State, j: nat, oc: Outcome, t': State)
    requires Inv(c, s) && Exclusive(s, o, i)
    requires t == Run(c, s, acts) && t.now < s.guards[o]
    requires j < |t.jobs| && j != i && t.jobs[j].Timeout? && t.jobs[j].order == o
    requires t' == TimeoutStep(c, t, j, oc)
    ensures SameStores(t, t')
  {
    ExclusiveRun(c, s, acts, o, i);
    TimeoutStepActsIff(c, t, j, oc, t');
  }

  /** The exclusion needs that premise: a call that stalls past its guard's 24 hours is
      still able to cancel the row while another call holds the new guard. */
  lemma StaleCallActs(c: Config, s: State, i: nat, j: nat, o: OrderId, user: UserId, sku: Sku,
                      s1: State, s2: State, s3: State)
    requires i < |s.jobs| && j < |s.jobs| && i != j && o in s.rows && s.rows[o].status == Pending
    requires s.jobs[i].Timeout? && s.jobs[i].order == o && s.jobs[i].tpc.Guard?
    requires s.jobs[j].Timeout? && s.jobs[j].order == o && s.jobs[j].tpc == Cancel(user, sku)
    requires s1.now >= s.rows[o].expires && s1 == s.(now := s1.now) && !Guarded(s1, o)
    requires s2 == TimeoutStep(c, s1, i, Ok) && s3 == TimeoutStep(c, s2, j, Ok)
    ensures Guarded(s2, o) && Guarded(s3, o) && Inside(s2.jobs[i], o)
    ensures s3.rows[o].status == Cancelled
  {
    assert s2.jobs[j] == s.jobs[j] && s2.rows == s.rows && s2.now == s1.now;
    assert s3 == CancelStep(c, s2, j, o, user, sku, s.jobs[j].rest, Ok);
  }

  // ---- a timeout that fires early

  lemma InsertKeepsRow(c: Config, s: State, i: nat, ev: Event, expires: int, oc: Outcome, o: OrderId, s': State)
    requires i < |s.jobs| && s' == InsertStep(c, s, i, ev, expires, oc) && o in s.rows
    ensures o in s'.rows && s'.rows[o] == s.rows[o]
  {
  }

  lemma LateHandleKeepsRows(s: State, i: nat, ev: Event, expires: int, attempt: nat, oc: Outcome)
    requires i < |s.jobs|
    ensures FlipStep(s, i, ev, expires, oc).rows == s.rows && ArmStep(s, i, ev, expires, attempt, oc).rows == s.rows
  {
  }

  lemma HandleKeepsRow(c: Config, s: State, i: nat, oc: Outcome, o: OrderId, s': State)
    requires i < |s.jobs| && s.jobs[i].Handle? && s' == HandleStep(c, s, i, oc) && o in s.rows
    ensures o in s'.rows && s'.rows[o] == s.rows[o]
  {
    var Handle(ev, expires, pc) := s.jobs[i];
    if pc.Insert? {
      InsertKeepsRow(c, s, i, ev, expires, oc, o, s');
    } else {
      LateHandleKeepsRows(s, i, ev, expires, if pc.Arm? then pc.attempt else 0, oc);
    }
  }

  lemma CancelKeepsOtherRows(c: Config, s: State, i: nat, x: OrderId, user: UserId, sku: Sku, rest: seq<OrderId>,
                             oc: Outcome, o: OrderId, s': State)
    requires i < |s.jobs| && s' == CancelStep(c, s, i, x, user, sku, rest, oc) && o in s.rows && (x != o || !Due(s, o))
    ensures o in s'.rows && s'.rows[o] == s.rows[o]
  {
  }

  lemma TimeoutKeepsRow(c: Config, s: State, i: nat, oc: Outcome, o: OrderId, s': State)
    requires i < |s.jobs| && s.jobs[i].Timeout? && s' == TimeoutStep(c, s, i, oc) && o in s.rows
    requires !Inside(s.jobs[i], o)
    ensures o in s'.rows && s'.rows[o] == s.rows[o]
  {
    var Timeout(x, pc, rest) := s.jobs[i];
    if pc.Cancel? {
      assert s' == CancelStep(c, s, i, x, pc.user, pc.sku, rest, oc);
      CancelKeepsOtherRows(c, s, i, x, pc.user, pc.sku, rest, oc, o, s');
    } else if pc.Restock? {
      RestockKeepsRows(c, s, i, oc, s');
    } else {
      QuietTimeoutStep(c, s, i, oc, s');
    }
  }

  lemma RestockKeepsRows(c: Config, s: State, i: nat, oc: Outcome, s': State)
    requires i < |s.jobs| && s.jobs[i].Timeout? && s.jobs[i].tpc.Restock? && s' == TimeoutStep(c, s, i, oc)
    ensures s'.rows == s.rows
  {
  }

  lemma OtherJobKeepsRows(c: Config, s: State, i: nat, oc: Outcome, page: seq<OrderId>, s': State)
    requires i < |s.jobs| && !s.jobs[i].Timeout? && !s.jobs[i].Handle? && s' == StepOfJob(c, s, i, oc, page)
    ensures s'.rows == s.rows
  {
    if s.jobs[i].Dlq? { DlqKeepsRows(c, s, i, oc, page, s'); }
  }

  lemma DlqKeepsRows(c: Config, s: State, i: nat, oc: Outcome, page: seq<OrderId>, s': State)
    requires i < |s.jobs| && s.jobs[i].Dlq? && s' == StepOfJob(c, s, i, oc, page)
    ensures s'.rows == s.rows
  {
  }

  lemma EnvironmentKeepsUncancelled(c: Config, s: State, a: Action, o: OrderId, s': State)
    requires !a.PlaceStep? && !a.JobStep? && s' == Apply(c, s, a) && o in s.rows && s.rows[o].status != Cancelled
    ensures o in s'.rows && s'.rows[o].status != Cancelled
  {
  }

  lemma UncancelledStep(c: Config, s: State, a: Action, o: OrderId, s': State)
    requires Inv(c, s) && Exclusive(s, o, -1) && s' == Apply(c, s, a)
    requires o in s.rows && s.rows[o].status != Cancelled
    ensures o in s'.rows && s'.rows[o].status != Cancelled
  {
    if a.PlaceStep? {
      if a.order in s.places { PlaceStepKeeps(c, s, a.order, a.oc, s'); }
    } else if a.JobStep? {
      if a.job < |s.jobs| {
        if s.jobs[a.job].Timeout? {
          TimeoutKeepsRow(c, s, a.job, a.oc, o, s');
        } else if s.jobs[a.job].Handle? {
          HandleKeepsRow(c, s, a.job, a.oc, o, s');
        } else {
          OtherJobKeepsRows(c, s, a.job, a.oc, a.page, s');
        }
      }
    } else {
      EnvironmentKeepsUncancelled(c, s, a, o, s');
    }
  }

  /** While an order is guarded and no call is past the guard, nobody cancels it. */
  lemma {:induction false} GuardedStaysUncancelled(c: Config, s: State, acts: seq<Action>, o: OrderId)
    requires Inv(c, s) && Exclusive(s, o, -1) && o in s.rows && s.rows[o].status != Cancelled
    requires Run(c, s, acts).now < s.guards[o]
    ensures o in Run(c, s, acts).rows && Run(c, s, acts).rows[o].status != Cancelled
  {
    if acts != [] {
      var before := acts[..|acts| - 1];
      RunKeeps(c, s, before);
      StepKeeps(c, Run(c, s, before), acts[|acts| - 1], Run(c, s, acts));
      GuardedStaysUncancelled(c, s, before, o);
      ExclusiveRun(c, s, before, o, -1);
      UncancelledStep(c, Run(c, s, before), acts[|acts| - 1], o, Run(c, s, acts));
    }
  }

  lemma CancelMissEnds(c: Config, s: State, i: nat, o: OrderId, user: UserId, sku: Sku, rest: seq<OrderId>,
                       oc: Outcome, s': State)
    requires Exclusive(s, o, i) && i < |s.jobs| && !(oc.TookEffect() && Due(s, o))
    requires s' == CancelStep(c, s, i, o, user, sku, rest, oc)
    ensures Exclusive(s', o, -1) && s'.guards == s.guards && s'.rows == s.rows
  {
    assert s'.jobs == s.jobs[i := NextTimeout(rest)];
  }

  /** The UPDATE of the only call past the guard does nothing, because nothing is due yet or
      because it does not reach the database: until the guard's 24 hours are over no call,
      neither a redelivery nor any pass of the reconciler, cancels the order. */
  lemma MissedUpdateStrandsOrder(c: Config, s: State, i: nat, o: OrderId, user: UserId, sku: Sku, rest: seq<OrderId>,
                                 oc: Outcome, s1: State, acts: seq<Action>, t: State)
    requires Inv(c, s) && Exclusive(s, o, i) && i < |s.jobs| && s.jobs[i] == Timeout(o, Cancel(user, sku), rest)
    requires o in s.rows && s.rows[o].status != Cancelled && !(oc.TookEffect() && Due(s, o))
    requires s1 == Apply(c, s, JobStep(i, oc, [])) && t == Run(c, s1, acts) && t.now < s.guards[o]
    ensures o in t.rows && t.rows[o].status != Cancelled
  {
    assert s1 == CancelStep(c, s, i, o, user, sku, rest, oc);
    CancelMissEnds(c, s, i, o, user, sku, rest, oc, s1);
    StepKeeps(c, s, JobStep(i, oc, []), s1);
    GuardedStaysUncancelled(c, s1, acts, o);
  }

  /** A schedule carries whole seconds, so it may fire before the expiry. Such a call finds
      nothing due but keeps the guard. */
  lemma EarlyFiringStrandsOrder(c: Config, s: State, i: nat, o: OrderId, user: UserId, sku: Sku, rest: seq<OrderId>,
                                oc: Outcome, s1: State, acts: seq<Action>, t: State)
    requires Inv(c, s) && Exclusive(s, o, i) && i < |s.jobs| && s.jobs[i] == Timeout(o, Cancel(user, sku), rest)
    requires o in s.rows && s.rows[o].status == Pending && s.now < s.rows[o].expires
    requires s1 == Apply(c, s, JobStep(i, oc, [])) && t == Run(c, s1, acts) && t.now < s.guards[o]
    ensures o in t.rows && t.rows[o].status != Cancelled
  {
    MissedUpdateStrandsOrder(c, s, i, o, user, sku, rest, oc, s1, acts, t);
  }

  lemma GetFails(c: Config, s: State, i: nat, o: OrderId, rest: seq<OrderId>, oc: Outcome, s': State)
    requires Exclusive(s, o, i) && i < |s.jobs| && s.jobs[i] == Timeout(o, Get, rest) && !oc.Ok?
    requires s' == TimeoutStep(c, s, i, oc)
    ensures Exclusive(s', o, -1) && s'.guards == s.guards && s'.rows == s.rows
  {
    assert s'.jobs == s.jobs[i := NextTimeout(rest)];
  }

  /** Any error of GetOrder has the same effect, also when the order is due. */
  lemma FailedGetStrandsOrder(c: Config, s: State, i: nat, o: OrderId, rest: seq<OrderId>,
                              oc: Outcome, s1: State, acts: seq<Action>, t: State)
    requires Inv(c, s) && Exclusive(s, o, i) && i < |s.jobs| && s.jobs[i] == Timeout(o, Get, rest) && !oc.Ok?
    requires o in s.rows && s.rows[o].status != Cancelled
    requires s1 == Apply(c, s, JobStep(i, oc, [])) && t == Run(c, s1, acts) && t.now < s.guards[o]
    ensures o in t.rows && t.rows[o].status != Cancelled
  {
    GetFails(c, s, i, o, rest, oc, s1);
    StepKeeps(c, s, JobStep(i, oc, []), s1);
    GuardedStaysUncancelled(c, s1, acts, o);
  }

  lemma GuardIsLost(c: Config, s: State, i: nat, o: OrderId, rest: seq<OrderId>, s': State)
    requires i < |s.jobs| && s.jobs[i] == Timeout(o, Guard, rest) && !Guarded(s, o)
    requires (forall j | 0 <= j < |s.jobs| :: !Inside(s.jobs[j], o)) && s' == TimeoutStep(c, s, i, Lost)
    ensures Exclusive(s', o, -1) && s'.guards[o] == s.now + GUARD_TTL && s'.rows == s.rows
  {
    assert s'.jobs == s.jobs[i := NextTimeout(rest)];
  }

  /** And so has a SETNX whose reply is lost: the guard is set and nobody is past it. */
  lemma LostGuardStrandsOrder(c: Config, s: State, i: nat, o: OrderId, rest: seq<OrderId>,
                              s1: State, acts: seq<Action>, t: State)
    requires Inv(c, s) && i < |s.jobs| && s.jobs[i] == Timeout(o, Guard, rest) && !Guarded(s, o)
    requires forall j | 0 <= j < |s.jobs| :: !Inside(s.jobs[j], o)
    requires o in s.rows && s.rows[o].status != Cancelled
    requires s1 == Apply(c, s, JobStep(i, Lost, [])) && t == Run(c, s1, acts) && t.now < s.now + GUARD_TTL
    ensures o in t.rows && t.rows[o].status != Cancelled
  {
    GuardIsLost(c, s, i, o, rest, s1);
    StepKeeps(c, s, JobStep(i, Lost, []), s1);
    GuardedStaysUncancelled(c, s1, acts, o);
  }
}
