/** When the worker inserts an order, when a payment counts, and how many passes of the reconciler
    lead at a time (internal/store/store.go and internal/order/reconciler.go). */
module OrderJobs {
  import opened Common
  import opened Inventory
  import opened OrderModel
  import opened OrderInvariants
  import opened OrderSteps

  // ---- InsertOrder

  /** What the constraints of the table ask of a new row: its user and product are known, and the
      user has no order for that event yet. */
  ghost predicate Fits(c: Config, rows: map<OrderId, Row>, ev: Event) {
    && ev.user in c.users && ev.sku in c.products
    && !exists o :: o in rows && rows[o].user == ev.user && rows[o].event == ev.event
  }

  /** A statement that reaches the database inserts the event's row exactly when the id is new and
      the row fits; the delivery goes on exactly when it sees a row under the id. */
  lemma InsertsIff(c: Config, s: State, i: nat, ev: Event, expires: int, oc: Outcome, s': State)
    requires i < |s.jobs| && s.jobs[i] == Handle(ev, expires, Insert) && s' == Apply(c, s, JobStep(i, oc, []))
    ensures s'.rows == if oc.TookEffect() && ev.order !in s.rows && Fits(c, s.rows, ev)
                       then s.rows[ev.order := Row(ev.user, ev.event, ev.sku, ev.qty, Pending, expires, s.now, 1)]
                       else s.rows
    ensures s'.jobs == s.jobs[i := if oc == Ok && (ev.order in s.rows || Fits(c, s.rows, ev))
                                   then Handle(ev, expires, Flip) else Finished]
    ensures s' == s.(rows := s'.rows, jobs := s'.jobs)
  {
    InsertIs(c, s, i, ev, expires, oc, s');
    ReplyIs(c, s, ev);
  }

  lemma ReplyIs(c: Config, s: State, ev: Event)
    ensures InsertReply(c, s, ev).RowExists? <==> ev.order in s.rows
    ensures InsertReply(c, s, ev).NewRow? <==> ev.order !in s.rows && Fits(c, s.rows, ev)
  {
  }

  // ---- the payment

  /** A payment counts exactly while the order is pending and its deadline has not come; from the
      deadline on the order can only be cancelled. */
  lemma PaysIff(c: Config, s: State, o: OrderId, s': State)
    requires s' == Apply(c, s, Pay(o)) && o in s.rows
    ensures var counts := s.rows[o].status == Pending && s.now < s.rows[o].expires;
      s' == s.(rows := if counts then s.rows[o := s.rows[o].(status := Paid)] else s.rows)
    ensures s.rows[o].status == Pending ==> (s.now < s.rows[o].expires <==> !Due(s, o))
  {
  }

  // ---- the leader lock

  lemma SweepKeepsLeader(c: Config, s: State, o: OrderId, oc: Outcome)
    requires o in s.places && (s.places[o].pc.Sweep? || s.places[o].pc.CheckLatch? || s.places[o].pc.Latch?)
    ensures StepOfPlace(c, s, o, oc).leader == s.leader
  {
  }

  lemma PublishKeepsLeader(c: Config, s: State, o: OrderId, oc: Outcome)
    requires o in s.places && (s.places[o].pc.Mark? || s.places[o].pc.Publish?)
    ensures StepOfPlace(c, s, o, oc).leader == s.leader
  {
  }

  lemma PlaceKeepsLeader(c: Config, s: State, o: OrderId, oc: Outcome)
    requires o in s.places
    ensures StepOfPlace(c, s, o, oc).leader == s.leader
  {
    var pc := s.places[o].pc;
    if pc.Sweep? || pc.CheckLatch? || pc.Latch? {
      SweepKeepsLeader(c, s, o, oc);
    } else if pc.Mark? || pc.Publish? {
      PublishKeepsLeader(c, s, o, oc);
    }
  }

  lemma InsertKeepsLeader(c: Config, s: State, i: nat, ev: Event, expires: int, oc: Outcome)
    requires i < |s.jobs|
    ensures InsertStep(c, s, i, ev, expires, oc).leader == s.leader
  {
  }

  lemma HandleKeepsLeader(c: Config, s: State, i: nat, oc: Outcome)
    requires i < |s.jobs| && s.jobs[i].Handle?
    ensures HandleStep(c, s, i, oc).leader == s.leader
  {
    if s.jobs[i].hpc.Insert? { InsertKeepsLeader(c, s, i, s.jobs[i].ev, s.jobs[i].expires, oc); }
  }

  lemma CancelKeepsLeader(c: Config, s: State, i: nat, o: OrderId, user: UserId, sku: Sku, rest: seq<OrderId>, oc: Outcome)
    requires i < |s.jobs|
    ensures CancelStep(c, s, i, o, user, sku, rest, oc).leader == s.leader
  {
  }

  lemma RestockKeepsLeader(c: Config, s: State, i: nat, oc: Outcome, s': State)
    requires i < |s.jobs| && s.jobs[i].Timeout? && s.jobs[i].tpc.Restock? && s' == TimeoutStep(c, s, i, oc)
    ensures s'.leader == s.leader
  {
  }

  lemma QuietTimeoutKeepsLeader(c: Config, s: State, i: nat, oc: Outcome, s': State)
    requires i < |s.jobs| && s.jobs[i].Timeout? && (s.jobs[i].tpc.Guard? || s.jobs[i].tpc.Get? || s.jobs[i].tpc.Announce?)
    requires s' == TimeoutStep(c, s, i, oc)
    ensures s'.leader == s.leader
  {
  }

  lemma TimeoutKeepsLeader(c: Config, s: State, i: nat, oc: Outcome)
    requires i < |s.jobs| && s.jobs[i].Timeout?
    ensures TimeoutStep(c, s, i, oc).leader == s.leader
  {
    var pc, s' := s.jobs[i].tpc, TimeoutStep(c, s, i, oc);
    if pc.Cancel? {
      CancelKeepsLeader(c, s, i, s.jobs[i].order, pc.user, pc.sku, s.jobs[i].rest, oc);
    } else if pc.Restock? {
      RestockKeepsLeader(c, s, i, oc, s');
    } else {
      QuietTimeoutKeepsLeader(c, s, i, oc, s');
    }
  }

  lemma JobKeepsLeader(c: Config, s: State, i: nat, oc: Outcome, page: seq<OrderId>)
    requires i < |s.jobs| && (s.jobs[i].Lead? ==> s.now < s.leader)
    ensures StepOfJob(c, s, i, oc, page).leader == s.leader
  {
    if s.jobs[i].Handle? {
      HandleKeepsLeader(c, s, i, oc);
    } else if s.jobs[i].Timeout? {
      TimeoutKeepsLeader(c, s, i, oc);
    }
  }

  lemma StepKeepsLeader(c: Config, s: State, a: Action)
    requires s.now < s.leader
    ensures Apply(c, s, a).leader == s.leader
  {
    if a.PlaceStep? {
      if a.order in s.places { PlaceKeepsLeader(c, s, a.order, a.oc); }
    } else if a.JobStep? {
      if a.job < |s.jobs| { JobKeepsLeader(c, s, a.job, a.oc, a.page); }
    }
  }

  lemma {:induction false} LockStays(c: Config, s: State, acts: seq<Action>)
    requires Inv(c, s) && Run(c, s, acts).now < s.leader
    ensures Run(c, s, acts).leader == s.leader
  {
    if acts != [] {
      var n := |acts| - 1;
      RunKeeps(c, s, acts[..n]);
      StepKeeps(c, Run(c, s, acts[..n]), acts[n], Run(c, s, acts));
      LockStays(c, s, acts[..n]);
      StepKeepsLeader(c, Run(c, s, acts[..n]), acts[n]);
    }
  }

  /** One pass leads at a time: once a pass has taken the lock, with its reply or without, no other
      gets past it for a minute, whatever happens; a pass that finds the lock free and sees no error
      does lead. */
  lemma OnePassLeads(c: Config, s: State, i: nat, oc: Outcome, s1: State, acts: seq<Action>, t: State,
                     j: nat, oc': Outcome, page: seq<OrderId>, t': State)
    requires Inv(c, s) && i < |s.jobs| && s.jobs[i] == Lead && s.leader <= s.now && oc.TookEffect()
    requires s1 == Apply(c, s, JobStep(i, oc, [])) && t == Run(c, s1, acts) && t.now < s.now + 60_000_000
    requires j < |t.jobs| && t.jobs[j] == Lead && t' == Apply(c, t, JobStep(j, oc', page))
    ensures oc == Ok ==> s1.jobs[i] == Fetch
    ensures t'.jobs[j] == Finished
  {
    LeadIs(c, s, i, oc, s1);
    StepKeeps(c, s, JobStep(i, oc, []), s1);
    LockStays(c, s1, acts);
    LockedOut(c, t, j, oc', page, t');
  }

  lemma LockedOut(c: Config, s: State, j: nat, oc: Outcome, page: seq<OrderId>, s': State)
    requires j < |s.jobs| && s.jobs[j] == Lead && s.now < s.leader && s' == Apply(c, s, JobStep(j, oc, page))
    ensures j < |s'.jobs| && s'.jobs[j] == Finished
  {
  }
}
