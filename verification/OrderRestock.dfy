/** Cancelling an order and putting its unit back: what the schedule armed by `handleOrder`
    can and cannot do. */
module OrderRestock {
  import opened Common
  import opened Inventory
  import opened OrderModel
  import opened OrderInvariants
  import opened OrderSteps
  import opened OrderUnits
  import opened OrderTheorems
  import opened OrderGuard

  /** A schedule is armed only after PUBLISHED has been written. */
  ghost predicate TimersInv(s: State) {
    forall t :: t in s.timers ==> Find(s.cells, t.order) == Some(Published)
  }

  // ---- which steps arm a schedule

  lemma SweepTimers(c: Config, s: State, o: OrderId, offset: nat, oc: Outcome)
    requires o in s.places
    ensures SweepStep(c, s, o, offset, oc).timers == s.timers
  {
  }

  lemma MarkTimers(c: Config, s: State, o: OrderId, key: InvKey, oc: Outcome)
    requires o in s.places
    ensures MarkStep(c, s, o, key, oc).timers == s.timers
  {
  }

  lemma PublishTimers(s: State, o: OrderId, key: InvKey, attempt: nat, oc: Outcome)
    requires o in s.places
    ensures PublishStep(s, o, key, attempt, oc).timers == s.timers
  {
  }

  lemma CompensateTimers(s: State, o: OrderId, key: InvKey, who: Party, cpc: CompPc, oc: Outcome)
    ensures Compensate(s, o, key, who, cpc, oc).timers == s.timers
  {
  }

  lemma PlaceTimers(c: Config, s: State, o: OrderId, oc: Outcome)
    requires o in s.places
    ensures StepOfPlace(c, s, o, oc).timers == s.timers
  {
    match s.places[o].pc
    case Sweep(offset) => SweepTimers(c, s, o, offset, oc);
    case Mark(key) => MarkTimers(c, s, o, key, oc);
    case Publish(key, attempt) => PublishTimers(s, o, key, attempt, oc);
    case Refunding(key, cpc) => CompensateTimers(s, o, key, ByPlace, cpc, oc);
    case _ =>
  }

  lemma InsertTimers(c: Config, s: State, i: nat, ev: Event, expires: int, oc: Outcome)
    requires i < |s.jobs|
    ensures InsertStep(c, s, i, ev, expires, oc).timers == s.timers
  {
  }

  lemma CancelTimers(c: Config, s: State, i: nat, o: OrderId, user: UserId, sku: Sku, rest: seq<OrderId>, oc: Outcome)
    requires i < |s.jobs|
    ensures CancelStep(c, s, i, o, user, sku, rest, oc).timers == s.timers
  {
  }

  lemma QuietTimers(c: Config, s: State, i: nat, oc: Outcome)
    requires i < |s.jobs| && s.jobs[i].Timeout?
    requires s.jobs[i].tpc.Guard? || s.jobs[i].tpc.Get? || s.jobs[i].tpc.Announce?
    ensures TimeoutStep(c, s, i, oc).timers == s.timers
  {
  }

  lemma RestockTimers(c: Config, s: State, i: nat, oc: Outcome)
    requires i < |s.jobs| && s.jobs[i].Timeout? && s.jobs[i].tpc.Restock?
    ensures TimeoutStep(c, s, i, oc).timers == s.timers
  {
  }

  lemma TimeoutTimers(c: Config, s: State, i: nat, oc: Outcome)
    requires i < |s.jobs| && s.jobs[i].Timeout?
    ensures TimeoutStep(c, s, i, oc).timers == s.timers
  {
    var Timeout(o, pc, rest) := s.jobs[i];
    if pc.Cancel? {
      assert TimeoutStep(c, s, i, oc) == CancelStep(c, s, i, o, pc.user, pc.sku, rest, oc);
      CancelTimers(c, s, i, o, pc.user, pc.sku, rest, oc);
    } else if pc.Restock? {
      RestockTimers(c, s, i, oc);
    } else {
      QuietTimers(c, s, i, oc);
    }
  }

  lemma ArmTimers(s: State, i: nat, ev: Event, expires: int, attempt: nat, oc: Outcome, t: Timer)
    requires i < |s.jobs| && t in ArmStep(s, i, ev, expires, attempt, oc).timers
    ensures t in s.timers || t.order == ev.order
  {
  }

  /** Only the last command of `handleOrder` arms a schedule, and only for its own order. */
  lemma HandleTimers(c: Config, s: State, i: nat, oc: Outcome, t: Timer)
    requires i < |s.jobs| && s.jobs[i].Handle? && t in HandleStep(c, s, i, oc).timers
    ensures t in s.timers || (s.jobs[i].hpc.Arm? && t.order == s.jobs[i].ev.order)
  {
    var Handle(ev, expires, pc) := s.jobs[i];
    if pc.Insert? {
      InsertTimers(c, s, i, ev, expires, oc);
    } else if pc.Arm? {
      ArmTimers(s, i, ev, expires, pc.attempt, oc, t);
    }
  }

  lemma DlqTimers(c: Config, s: State, i: nat, oc: Outcome, page: seq<OrderId>)
    requires i < |s.jobs| && s.jobs[i].Dlq?
    ensures StepOfJob(c, s, i, oc, page).timers == s.timers
  {
  }

  lemma ReconcilerTimers(c: Config, s: State, i: nat, oc: Outcome, page: seq<OrderId>)
    requires i < |s.jobs| && (s.jobs[i].Lead? || s.jobs[i].Fetch? || s.jobs[i].Finished?)
    ensures StepOfJob(c, s, i, oc, page).timers == s.timers
  {
  }

  lemma JobTimers(c: Config, s: State, i: nat, oc: Outcome, page: seq<OrderId>, t: Timer)
    requires i < |s.jobs| && t in StepOfJob(c, s, i, oc, page).timers
    ensures t in s.timers || (s.jobs[i].Handle? && s.jobs[i].hpc.Arm? && t.order == s.jobs[i].ev.order)
  {
    if s.jobs[i].Handle? {
      assert StepOfJob(c, s, i, oc, page) == HandleStep(c, s, i, oc);
      HandleTimers(c, s, i, oc, t);
    } else if s.jobs[i].Timeout? {
      assert StepOfJob(c, s, i, oc, page) == TimeoutStep(c, s, i, oc);
      TimeoutTimers(c, s, i, oc);
    } else if s.jobs[i].Dlq? {
      DlqTimers(c, s, i, oc, page);
    } else {
      ReconcilerTimers(c, s, i, oc, page);
    }
  }

  lemma EnvironmentTimers(c: Config, s: State, a: Action)
    requires !a.PlaceStep? && !a.JobStep?
    ensures Apply(c, s, a).timers == s.timers
  {
  }

  lemma TimersStep(c: Config, s: State, a: Action, s': State)
    requires Inv(c, s) && TimersInv(s) && s' == Apply(c, s, a)
    ensures TimersInv(s')
  {
    StepKeeps(c, s, a, s');
    forall t | t in s'.timers
      ensures Find(s'.cells, t.order) == Some(Published)
    {
      if a.JobStep? && a.job < |s.jobs| {
        JobTimers(c, s, a.job, a.oc, a.page, t);
        if Subject(s.jobs[a.job]).Some? { JobKnows(c, s, a.job); }
      } else if a.PlaceStep? && a.order in s.places {
        PlaceTimers(c, s, a.order, a.oc);
      } else if !a.JobStep? && !a.PlaceStep? {
        EnvironmentTimers(c, s, a);
      }
      assert Look(s, t.order).cell == Some(Published);
      assert Evolves(s.now, Look(s, t.order), Look(s', t.order));
      assert Look(s', t.order).cell == Some(Published);
    }
  }

  lemma {:induction false} RunTimers(c: Config, s0: State, acts: seq<Action>)
    requires Start(s0)
    ensures TimersInv(Run(c, s0, acts))
  {
    if acts != [] {
      var before := acts[..|acts| - 1];
      RunTimers(c, s0, before);
      StartInv(c, s0);
      RunKeeps(c, s0, before);
      TimersStep(c, Run(c, s0, before), acts[|acts| - 1], Run(c, s0, acts));
    }
  }

  // ---- theorems

  /** A scheduled timeout never puts stock back: once a schedule is armed for an order, no step
      of any process ever refunds it, so the timeout that the schedule fires cancels the row
      and leaves the unit out of the shards. */
  lemma ArmedOrdersAreNeverRestocked(c: Config, s0: State, acts: seq<Action>, more: seq<Action>, t: Timer, s: State)
    requires Start(s0) && s == Run(c, s0, acts) && t in s.timers
    ensures Run(c, s, more).hist.refunds[t.order] == s.hist.refunds[t.order]
  {
    RunTimers(c, s0, acts);
    PublishedIsNeverRefunded(c, s0, acts, more, t.order, s);
  }

  // ---- cancel and restock over one whole call of ProcessTimeout

  predicate AtRelease(job: Job, o: OrderId) {
    job.Timeout? && job.order == o && job.tpc.Restock? && job.tpc.cpc.Release?
  }

  predicate NotMine(i: nat, a: Action) { !(a.JobStep? && a.job == i) }

  lemma {:induction false} JobStays(c: Config, s: State, others: seq<Action>, i: nat)
    requires Inv(c, s) && i < |s.jobs| && forall k | 0 <= k < |others| :: NotMine(i, others[k])
    ensures var t := Run(c, s, others); i < |t.jobs| && t.jobs[i] == s.jobs[i]
  {
    if others != [] {
      var before := others[..|others| - 1];
      JobStays(c, s, before, i);
      RunKeeps(c, s, before);
      assert NotMine(i, others[|others| - 1]);
      OthersKeepJob(c, Run(c, s, before), others[|others| - 1], i, Run(c, s, others));
    }
  }

  /** The call of job `i` has cancelled the row of `o`, and its last step has put the unit back. */
  ghost predicate CancelledBy(s: State, o: OrderId, i: nat) {
    o in s.rows && s.rows[o].status == Cancelled && Find(s.hist.cancels, o) == Some(i)
  }

  predicate RestockedBy(c: Config, t: State, i: nat, r: Outcome, o: OrderId) {
    var refund := RefundOf(c, t, JobStep(i, r, []));
    refund.Some? && refund.value.order == o && refund.value.party == ByTimeout
  }

  /** Exactly once fails on four accounts, and on no other. A call that is about to run its
      UPDATE with outcome `u`, and makes its next step with outcome `r` after any steps of other
      processes, has cancelled the order iff the UPDATE took effect on a due order; it has
      cancelled the order and put its unit back iff, besides, the UPDATE's reply arrived, the
      release reached Redis, and the cell still held the unit then. */
  lemma CancelledAndRestockedIff(c: Config, s: State, i: nat, o: OrderId, user: UserId, sku: Sku, rest: seq<OrderId>,
                              u: Outcome, s1: State, others: seq<Action>, t: State, r: Outcome)
    requires Inv(c, s) && i < |s.jobs| && s.jobs[i] == Timeout(o, Cancel(user, sku), rest)
    requires s1 == Apply(c, s, JobStep(i, u, []))
    requires t == Run(c, s1, others) && forall k | 0 <= k < |others| :: NotMine(i, others[k])
    ensures CancelledBy(s1, o, i) && !CancelledBy(s, o, i) <==> u.TookEffect() && Due(s, o)
    ensures CancelledBy(s1, o, i) && !CancelledBy(s, o, i) && RestockedBy(c, t, i, r, o) <==>
            u.Ok? && Due(s, o) && r.TookEffect() && Holds(t.cells, t.now, o)
    ensures RestockedBy(c, t, i, r, o) ==>
      Apply(c, t, JobStep(i, r, [])).hist.refunds[o] == t.hist.refunds[o] + 1
  {
    assert s1 == CancelStep(c, s, i, o, user, sku, rest, u);
    StepKeeps(c, s, JobStep(i, u, []), s1);
    CancelWritesDown(c, s, i, o, user, sku, rest, u, s1);
    JobStays(c, s1, others, i);
    RunKeeps(c, s1, others);
    ReleaseRestocksIff(c, t, i, o, r, rest);
  }

  lemma ReleaseRestocksIff(c: Config, t: State, i: nat, o: OrderId, r: Outcome, rest: seq<OrderId>)
    requires Inv(c, t) && i < |t.jobs| && (AtRelease(t.jobs[i], o) || t.jobs[i] == NextTimeout(rest))
    ensures RestockedBy(c, t, i, r, o) <==> AtRelease(t.jobs[i], o) && r.TookEffect() && Holds(t.cells, t.now, o)
    ensures RestockedBy(c, t, i, r, o) ==>
      Apply(c, t, JobStep(i, r, [])).hist.refunds[o] == t.hist.refunds[o] + 1
  {
    StepMovesUnits(c, t, JobStep(i, r, []), Apply(c, t, JobStep(i, r, [])));
  }

  lemma CancelWritesDown(c: Config, s: State, i: nat, o: OrderId, user: UserId, sku: Sku, rest: seq<OrderId>,
                         u: Outcome, s1: State)
    requires Inv(c, s) && i < |s.jobs| && s1 == CancelStep(c, s, i, o, user, sku, rest, u)
    ensures CancelledBy(s1, o, i) && !CancelledBy(s, o, i) <==> u.TookEffect() && Due(s, o)
    ensures |s1.jobs| == |s.jobs| && s1.jobs[i] ==
      if u.Ok? && Due(s, o) then Timeout(o, Restock(Shard(sku, Home(c, user)), Release), rest) else NextTimeout(rest)
  {
    assert OrderInv(c, s, o);
    assert Look(s, o).cancel == Find(s.hist.cancels, o);
  }

  // ---- no second chance

  /** The row is cancelled and no call is about to release the unit. */
  ghost predicate PastRelease(s: State, o: OrderId) {
    o in s.rows && s.rows[o].status == Cancelled && forall j | 0 <= j < |s.jobs| :: !AtRelease(s.jobs[j], o)
  }

  lemma CancelReleases(c: Config, s: State, i: nat, x: OrderId, user: UserId, sku: Sku, rest: seq<OrderId>,
                       oc: Outcome, o: OrderId, s': State)
    requires i < |s.jobs| && s' == CancelStep(c, s, i, x, user, sku, rest, oc)
    ensures i < |s'.jobs| && (AtRelease(s'.jobs[i], o) ==> x == o && Due(s, o))
  {
  }

  lemma EarlyReleases(c: Config, s: State, i: nat, oc: Outcome, o: OrderId, s': State)
    requires i < |s.jobs| && s.jobs[i].Timeout? && (s.jobs[i].tpc.Guard? || s.jobs[i].tpc.Get?)
    requires s' == TimeoutStep(c, s, i, oc)
    ensures i < |s'.jobs| && !AtRelease(s'.jobs[i], o)
  {
  }

  lemma LateReleases(c: Config, s: State, i: nat, oc: Outcome, o: OrderId, s': State)
    requires i < |s.jobs| && s.jobs[i].Timeout? && (s.jobs[i].tpc.Restock? || s.jobs[i].tpc.Announce?)
    requires s' == TimeoutStep(c, s, i, oc)
    ensures i < |s'.jobs| && !AtRelease(s'.jobs[i], o)
  {
  }

  /** A call gets to the release only by cancelling a due order. */
  lemma OnlyDueOrdersAreReleased(c: Config, s: State, i: nat, oc: Outcome, o: OrderId, s': State)
    requires i < |s.jobs| && s.jobs[i].Timeout? && s' == TimeoutStep(c, s, i, oc)
    ensures i < |s'.jobs| && (AtRelease(s'.jobs[i], o) ==> Due(s, o))
  {
    var Timeout(x, pc, rest) := s.jobs[i];
    if pc.Cancel? {
      assert s' == CancelStep(c, s, i, x, pc.user, pc.sku, rest, oc);
      CancelReleases(c, s, i, x, pc.user, pc.sku, rest, oc, o, s');
    } else if pc.Guard? || pc.Get? {
      EarlyReleases(c, s, i, oc, o, s');
    } else {
      LateReleases(c, s, i, oc, o, s');
    }
  }

  lemma CancelledStays(c: Config, s: State, a: Action, o: OrderId, s': State)
    requires Inv(c, s) && o in s.rows && s.rows[o].status == Cancelled && s' == Apply(c, s, a)
    ensures o in s'.rows && s'.rows[o].status == Cancelled
  {
    StepKeeps(c, s, a, s');
    assert Evolves(s.now, Look(s, o), Look(s', o));
    assert Look(s, o).row == Some(s.rows[o]) && Look(s', o).row == Find(s'.rows, o);
  }

  lemma TimeoutsRefundAtRelease(c: Config, s: State, a: Action, o: OrderId)
    requires PastRelease(s, o)
    ensures RefundOf(c, s, a).Some? && RefundOf(c, s, a).value.order == o ==> RefundOf(c, s, a).value.party != ByTimeout
  {
  }

  lemma PastReleaseStep(c: Config, s: State, a: Action, o: OrderId, s': State)
    requires Inv(c, s) && PastRelease(s, o) && s' == Apply(c, s, a)
    ensures PastRelease(s', o)
  {
    CancelledStays(c, s, a, o, s');
    if a.PlaceStep? {
      if a.order in s.places { PlaceStepKeeps(c, s, a.order, a.oc, s'); }
    } else if a.JobStep? {
      if a.job < |s.jobs| {
        JobStepKeeps(c, s, a.job, a.oc, a.page, s');
        if s.jobs[a.job].Timeout? {
          OnlyDueOrdersAreReleased(c, s, a.job, a.oc, o, s');
        } else {
          OtherJobStepRespectsGuard(c, s, a.job, a.oc, a.page, o, s');
        }
      }
    } else {
      EnvironmentKeepsJobs(c, s, a, s');
    }
  }

  lemma {:induction false} PastReleaseRun(c: Config, s: State, acts: seq<Action>, o: OrderId)
    requires Inv(c, s) && PastRelease(s, o)
    ensures PastRelease(Run(c, s, acts), o) && !RefundedIn(c, s, acts, o, ByTimeout)
  {
    if acts != [] {
      var n := |acts| - 1;
      PastReleaseRun(c, s, acts[..n], o);
      RunKeeps(c, s, acts[..n]);
      PastReleaseStep(c, Run(c, s, acts[..n]), acts[n], o, Run(c, s, acts));
      TimeoutsRefundAtRelease(c, Run(c, s, acts[..n]), acts[n], o);
      LastOrBefore(c, s, acts, n, o, ByTimeout);
    }
  }

  /** An order cancelled by an UPDATE whose reply is lost is never refunded by any timeout,
      neither by this call nor by a redelivery or the reconciler. */
  lemma LostCancelIsNeverRestocked(c: Config, s: State, i: nat, o: OrderId, user: UserId, sku: Sku, rest: seq<OrderId>,
                                   s1: State, more: seq<Action>)
    requires Inv(c, s) && i < |s.jobs| && s.jobs[i] == Timeout(o, Cancel(user, sku), rest) && Due(s, o)
    requires s1 == Apply(c, s, JobStep(i, Lost, []))
    ensures var t := Run(c, s1, more);
      && o in t.rows && t.rows[o].status == Cancelled
      && !RefundedIn(c, s1, more, o, ByTimeout)
  {
    assert s1 == CancelStep(c, s, i, o, user, sku, rest, Lost);
    StepKeeps(c, s, JobStep(i, Lost, []), s1);
    UncancelledIsNotReleased(c, s, o);
    CancelWritesDown(c, s, i, o, user, sku, rest, Lost, s1);
    LostCancelJobs(c, s, i, o, user, sku, rest, s1);
    PastReleaseRun(c, s1, more, o);
  }

  lemma LostCancelJobs(c: Config, s: State, i: nat, o: OrderId, user: UserId, sku: Sku, rest: seq<OrderId>, s1: State)
    requires i < |s.jobs| && s1 == CancelStep(c, s, i, o, user, sku, rest, Lost)
    ensures s1.jobs == s.jobs[i := NextTimeout(rest)]
  {
  }

  lemma UncancelledIsNotReleased(c: Config, s: State, o: OrderId)
    requires Inv(c, s) && o in s.rows && s.rows[o].status == Pending
    ensures forall j | 0 <= j < |s.jobs| :: !AtRelease(s.jobs[j], o)
  {
    assert OrderInv(c, s, o);
    assert Look(s, o).row == Some(s.rows[o]);
    forall j | 0 <= j < |s.jobs|
      ensures !AtRelease(s.jobs[j], o)
    {
      if Subject(s.jobs[j]).Some? { JobKnows(c, s, j); }
    }
  }

  /** Nor is one whose release has been tried, whatever the outcome of that one try. */
  lemma OneReleaseOnly(c: Config, s: State, i: nat, oc: Outcome, s1: State, more: seq<Action>)
    requires Inv(c, s) && i < |s.jobs| && s.jobs[i].Timeout? && AtRelease(s.jobs[i], s.jobs[i].order)
    requires s1 == Apply(c, s, JobStep(i, oc, []))
    ensures !RefundedIn(c, s1, more, s.jobs[i].order, ByTimeout)
  {
    var o := s.jobs[i].order;
    JobKnows(c, s, i);
    assert Look(s, o).row == Some(s.rows[o]);
    CancelledStays(c, s, JobStep(i, oc, []), o, s1);
    StepKeeps(c, s, JobStep(i, oc, []), s1);
    JobStepKeeps(c, s, i, oc, [], s1);
    LateReleases(c, s, i, oc, o, s1);
    forall j | 0 <= j < |s1.jobs|
      ensures !AtRelease(s1.jobs[j], o)
    {
      if j != i && AtRelease(s.jobs[j], o) { JobKnows(c, s, j); }
    }
    PastReleaseRun(c, s1, more, o);
  }

  // ---- one release of ProcessTimeout

  /** A call of ProcessTimeout at its release has cancelled its row, and the release puts the
      unit back iff it reaches Redis and the cell holds the unit, which rules out every order
      with a schedule. */
  lemma ReleaseAfterCancelIff(c: Config, s0: State, acts: seq<Action>, i: nat, oc: Outcome, s: State, s': State)
    requires Start(s0) && s == Run(c, s0, acts) && i < |s.jobs|
    requires s.jobs[i].Timeout? && s.jobs[i].tpc.Restock? && s.jobs[i].tpc.cpc == Release
    requires s' == TimeoutStep(c, s, i, oc)
    ensures var o := s.jobs[i].order;
      && o in s.rows && s.rows[o].status == Cancelled
      && (s'.hist.refunds[o] == s.hist.refunds[o] + 1 <==> PutsBack(s, o, oc))
      && (s'.stock != s.stock <==> PutsBack(s, o, oc))
      && ((exists t :: t in s.timers && t.order == o) ==> !Holds(s.cells, s.now, o))
  {
    StartInv(c, s0);
    RunKeeps(c, s0, acts);
    JobKnows(c, s, i);
    var o, key := s.jobs[i].order, s.jobs[i].tpc.key;
    assert Look(s, o).row == Some(s.rows[o]);
    TimeoutRestoresIff(c, s, i, oc, s');
    RunTimers(c, s0, acts);
    NoHitSameStock(c, s, i, oc, s');
    assert PutsBack(s, o, oc) ==> At(s'.stock, key) != At(s.stock, key);
  }

  lemma NoHitSameStock(c: Config, s: State, i: nat, oc: Outcome, s': State)
    requires i < |s.jobs| && s.jobs[i].Timeout? && s.jobs[i].tpc.Restock? && s' == TimeoutStep(c, s, i, oc)
    ensures !PutsBack(s, s.jobs[i].order, oc) ==> s'.stock == s.stock
  {
  }
}
