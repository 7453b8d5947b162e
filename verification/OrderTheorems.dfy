/** What the purchase protocol guarantees over whole runs, under every interleaving. */
module OrderTheorems {
  import opened Common
  import opened Inventory
  import opened OrderModel
  import opened OrderInvariants

  // ---- conservation and overselling

  /** Conservation, per SKU, in every run: what the shards hold, what orders hold and what
      was lost with a reply add up to the seeded stock, and no counter is negative,
      although a timeout may refund another shard than the one that was decremented. */
  lemma Conservation(c: Config, s0: State, acts: seq<Action>, sku: Sku, s: State)
    requires Start(s0) && s == Run(c, s0, acts)
    ensures Total(s.stock, sku, c.shards) + |Held(s, sku)| + s.hist.lost[sku] == Total(s0.stock, sku, c.shards)
    ensures forall k :: k in s.stock ==> 0 <= s.stock[k]
  {
    StartInv(c, s0);
    RunKeeps(c, s0, acts);
    assert Held(s0, sku) == {};
    assert Ledger(c, s, sku) == Ledger(c, s0, sku);
  }

  /** Orders in the table that are not cancelled. */
  ghost function Live(s: State, sku: Sku): set<OrderId> {
    set o | o in s.rows && s.rows[o].sku == sku && s.rows[o].status != Cancelled
  }

  /** Orders whose event was stored although `Place` reported a failed publish or a dead
      letter arrived for it, and whose unit one of those two put back. */
  ghost function Doubled(s: State, sku: Sku): set<OrderId> {
    set o | o in s.stream && s.stream[o].sku == sku && s.hist.refunds[o] > 0 && o in s.hist.refundedBy &&
            ((s.hist.refundedBy[o] == ByPlace && o in s.hist.unacked) ||
             (s.hist.refundedBy[o] == ByDlq && o in s.hist.deadLettered))
  }

  lemma LiveIsHeldOrDoubled(c: Config, s: State, sku: Sku, o: OrderId)
    requires Inv(c, s) && o in Live(s, sku)
    ensures o in Held(s, sku) || o in Doubled(s, sku)
  {
    assert OrderInv(c, s, o);
    var r := Look(s, o);
    assert r.win.Some? && r.event.Some? && r.place.Some?;
    if r.refunds > 0 {
      assert r.refundedBy.Some? && !r.refundedBy.value.ByTimeout?;
    }
  }

  /** An order that was refunded holds no unit. */
  lemma DoubledIsNotHeld(c: Config, s: State, sku: Sku, o: OrderId)
    requires Inv(c, s) && o in Doubled(s, sku)
    ensures o !in Held(s, sku)
  {
    assert OrderInv(c, s, o);
    assert Look(s, o).refunds > 0;
  }

  lemma SetSizes<T>(a: set<T>, b: set<T>)
    ensures |a| + |b - a| == |b| + |a - b|
    ensures a <= b ==> |a| <= |b|
  {
    assert a == (a * b) + (a - b);
    assert b == (a * b) + (b - a);
  }

  /** The exact account of overselling: live orders and shelf stock exceed the seeded stock
      by the live orders whose unit was also put back, less the units that no live order
      holds. The live orders without a unit are exactly the live ones that are `Doubled`. */
  lemma OversellAccount(c: Config, s0: State, acts: seq<Action>, sku: Sku, s: State)
    requires Start(s0) && s == Run(c, s0, acts)
    ensures |Live(s, sku)| + Total(s.stock, sku, c.shards) + |Held(s, sku) - Live(s, sku)| + s.hist.lost[sku]
            == Total(s0.stock, sku, c.shards) + |Live(s, sku) - Held(s, sku)|
    ensures Live(s, sku) - Held(s, sku) == Live(s, sku) * Doubled(s, sku)
  {
    Conservation(c, s0, acts, sku, s);
    StartInv(c, s0);
    RunKeeps(c, s0, acts);
    SetSizes(Live(s, sku), Held(s, sku));
    forall o | o in Live(s, sku)
      ensures o !in Held(s, sku) <==> o in Doubled(s, sku)
    {
      LiveIsHeldOrDoubled(c, s, sku, o);
      if o in Doubled(s, sku) { DoubledIsNotHeld(c, s, sku, o); }
    }
  }

  /** No oversell, in every run: live orders plus shelf stock stay within the seeded stock
      plus the doubled orders; and there are none of those when no stored event was
      reported as failed and no dead letter arrived. */
  lemma NoOversell(c: Config, s0: State, acts: seq<Action>, sku: Sku, s: State)
    requires Start(s0) && s == Run(c, s0, acts)
    ensures |Live(s, sku)| + Total(s.stock, sku, c.shards) <= Total(s0.stock, sku, c.shards) + |Doubled(s, sku)|
    ensures s.hist.unacked == {} && s.hist.deadLettered == {} ==>
      |Live(s, sku)| + Total(s.stock, sku, c.shards) <= Total(s0.stock, sku, c.shards)
  {
    OversellAccount(c, s0, acts, sku, s);
    SetSizes(Live(s, sku) - Held(s, sku), Doubled(s, sku));
    if s.hist.unacked == {} && s.hist.deadLettered == {} {
      assert Doubled(s, sku) == {};
    }
  }

  /** The doubled orders are real: a last publish that is stored although its reply is lost
      makes Place put the unit back, and the delivered event then becomes a live order that
      no unit backs. */
  lemma StoredYetRefunded(c: Config, s: State, o: OrderId, key: InvKey, s1: State, s2: State, s3: State, s4: State)
    requires Inv(c, s) && o in s.places && s.places[o].pc == Publish(key, PUBLISH_ATTEMPTS - 1)
    requires Holds(s.cells, s.now, o) && o !in s.rows
    requires s1 == Apply(c, s, PlaceStep(o, Lost)) && s2 == Apply(c, s1, PlaceStep(o, Ok))
    requires s3 == Apply(c, s2, Deliver(o)) && s4 == Apply(c, s3, JobStep(|s.jobs|, Ok, []))
    requires InsertReply(c, s, EventOf(s, o, key)).NewRow?
    ensures o in Live(s4, s.places[o].sku) && o !in Held(s4, s.places[o].sku) && o in Doubled(s4, s.places[o].sku)
    ensures At(s4.stock, key) == At(s.stock, key) + 1
  {
    assert s1 == PublishStep(s, o, key, PUBLISH_ATTEMPTS - 1, Lost);
    StoredThenReleased(c, s1, o, key, s2);
    DeliveredBecomesRow(c, s2, o, EventOf(s, o, key), s3, s4);
    assert s4.hist.unacked == s1.hist.unacked;
  }

  lemma StoredThenReleased(c: Config, s: State, o: OrderId, key: InvKey, s': State)
    requires o in s.places && s.places[o].pc == Refunding(key, Release) && Holds(s.cells, s.now, o)
    requires s' == StepOfPlace(c, s, o, Ok)
    ensures s'.stock == Add(s.stock, key, 1) && s'.rows == s.rows && s'.stream == s.stream && s'.jobs == s.jobs
    ensures s'.hist.refunds == s.hist.refunds + multiset{o} && s'.hist.refundedBy == s.hist.refundedBy[o := ByPlace]
    ensures s'.hist.unacked == s.hist.unacked
  {
  }

  lemma DeliveredBecomesRow(c: Config, s: State, o: OrderId, ev: Event, s1: State, s2: State)
    requires o in s.stream && s.stream[o] == ev && ev.order == o && InsertReply(c, s, ev).NewRow?
    requires s1 == Apply(c, s, Deliver(o)) && s2 == Apply(c, s1, JobStep(|s.jobs|, Ok, []))
    ensures o in s2.rows && s2.rows[o].sku == ev.sku && s2.rows[o].status == Pending
    ensures s2.hist == s.hist && s2.stream == s.stream && s2.stock == s.stock
  {
    assert s1 == Spawn(s, Handle(ev, s.now + c.paymentWindow, Insert));
    assert s2 == InsertStep(c, s1, |s.jobs|, ev, s.now + c.paymentWindow, Ok);
  }

  /** The unique (user_id, event_id) net: a user never has two orders for one event. */
  lemma OneOrderPerUser(c: Config, s0: State, acts: seq<Action>, o: OrderId, o': OrderId, s: State)
    requires Start(s0) && s == Run(c, s0, acts)
    requires o in s.rows && o' in s.rows && s.rows[o].user == s.rows[o'].user && s.rows[o].event == s.rows[o'].event
    ensures o == o'
  {
    StartInv(c, s0);
    RunKeeps(c, s0, acts);
  }

  // ---- refunds

  /** In every run RESERVED is written at most once for an order and its unit is put back
      at most once, whether by Place, by a timeout or by the dead-letter handler, and only
      if it was taken. A refund by a timeout finds the row cancelled. */
  lemma AtMostOneRefund(c: Config, s0: State, acts: seq<Action>, o: OrderId, s: State)
    requires Start(s0) && s == Run(c, s0, acts)
    ensures s.hist.refunds[o] <= s.hist.reserved[o] <= 1
    ensures s.hist.refunds[o] == 1 ==>
      && o in s.hist.wins && o in s.cells && !s.cells[o].Reserved? && o in s.hist.refundedBy
      && (s.hist.refundedBy[o] == ByTimeout ==> o in s.rows && s.rows[o].status == Cancelled)
  {
    StartInv(c, s0);
    RunKeeps(c, s0, acts);
    assert OrderInv(c, s, o);
    assert Look(s, o).reserved <= 1;
  }

  /** Every event in the stream names the shard that its order decremented, so the dead-letter
      handler puts the unit back there, and its fallback key is unreachable. */
  lemma DeadLettersNameTheirShard(c: Config, s0: State, acts: seq<Action>, i: nat, s: State)
    requires Start(s0) && s == Run(c, s0, acts) && i < |s.jobs| && s.jobs[i].Dlq?
    ensures var ev := s.jobs[i].ev;
      && ev.order in s.hist.wins && ev.key == Some(s.hist.wins[ev.order])
      && DlqKey(c, ev) == s.hist.wins[ev.order]
      && DlqKey(c, ev).Shard? && DlqKey(c, ev).sku == ev.sku && DlqKey(c, ev).index < c.shards
  {
    StartInv(c, s0);
    RunKeeps(c, s0, acts);
    JobKeyInRange(c, s, i);
    JobKnows(c, s, i);
  }

  /** The key the dead-letter handler would build for an event without one. */
  lemma FallbackKeyIs(c: Config, ev: Event)
    requires ev.key.None?
    ensures KeyString(DlqKey(c, ev)) == Keys.FallbackKey(ev.sku, Home(c, ev.user)) && Proper(DlqKey(c, ev))
  {
    var home := Home(c, ev.user);
    Keys.FallbackNamesShardIffOneDigit(ev.sku, home);
  }

  /** The write of RESERVED is over, and the cell does not hold a unit (any more). */
  ghost predicate Settled(s: State, o: OrderId) {
    o in s.places && !Early(s.places[o].pc) && !Holds(s.cells, s.now, o)
  }

  lemma SettledStep(c: Config, s: State, a: Action, o: OrderId, s': State)
    requires Inv(c, s) && Settled(s, o) && s' == Apply(c, s, a)
    ensures Settled(s', o) && s'.hist.refunds[o] == s.hist.refunds[o]
  {
    StepKeeps(c, s, a, s');
    assert Evolves(s.now, Look(s, o), Look(s', o));
    assert !HoldsCell(Look(s, o), s.now) && !AtMark(Look(s, o));
    assert Look(s', o).refunds == Look(s, o).refunds;
    assert Look(s', o).place.Some? && !HoldsCell(Look(s', o), s'.now);
  }

  /** A cell that was published, compensated or has expired never holds a unit again, and
      no later step of any process refunds that order. */
  lemma {:induction false} SettledForever(c: Config, s: State, acts: seq<Action>, o: OrderId)
    requires Inv(c, s) && Settled(s, o)
    ensures Settled(Run(c, s, acts), o) && Run(c, s, acts).hist.refunds[o] == s.hist.refunds[o]
  {
    if acts != [] {
      var before := acts[..|acts| - 1];
      SettledForever(c, s, before, o);
      RunKeeps(c, s, before);
      SettledStep(c, Run(c, s, before), acts[|acts| - 1], o, Run(c, s, acts));
    }
  }

  /** Once `handleOrder` has written PUBLISHED, the order's unit is never put back: a later
      timeout cancels the row but restores no stock. */
  lemma PublishedIsNeverRefunded(c: Config, s0: State, acts: seq<Action>, more: seq<Action>, o: OrderId, s: State)
    requires Start(s0) && s == Run(c, s0, acts) && o in s.cells && s.cells[o] == Published
    ensures Run(c, s, more).hist.refunds[o] == s.hist.refunds[o]
  {
    StartInv(c, s0);
    RunKeeps(c, s0, acts);
    assert OrderInv(c, s, o);
    assert Look(s, o).cell == Some(Published) && Look(s, o).place.Some?;
    SettledForever(c, s, more, o);
  }

  /** When exactly the release step of a timeout restores stock: the command reached Redis
      and the cell still held the unit. */
  lemma TimeoutRestoresIff(c: Config, s: State, i: nat, oc: Outcome, s': State)
    requires i < |s.jobs| && s.jobs[i].Timeout? && s.jobs[i].tpc.Restock? && s.jobs[i].tpc.cpc == Release
    requires s' == TimeoutStep(c, s, i, oc)
    ensures var o, key := s.jobs[i].order, s.jobs[i].tpc.key;
      var hit := oc.TookEffect() && Holds(s.cells, s.now, o);
      && s'.hist.refunds[o] == s.hist.refunds[o] + (if hit then 1 else 0)
      && At(s'.stock, key) == At(s.stock, key) + (if hit then 1 else 0)
  {
  }

  // ---- cancellation

  /** A row keeps its identity for ever, and PAID and CANCELLED_TIMEOUT are final. */
  predicate RowLater(row: Row, row': Row) {
    || row' == row
    || (row.status == Pending && row' == row.(status := Cancelled, version := row.version + 1))
    || (row.status == Pending && row' == row.(status := Paid))
  }

  lemma {:induction false} RowForever(c: Config, s: State, acts: seq<Action>, o: OrderId)
    requires Inv(c, s) && o in s.rows
    ensures var s' := Run(c, s, acts); o in s'.rows && RowLater(s.rows[o], s'.rows[o])
  {
    if acts != [] {
      var before := acts[..|acts| - 1];
      RowForever(c, s, before, o);
      RunKeeps(c, s, before);
      var mid, s' := Run(c, s, before), Run(c, s, acts);
      StepKeeps(c, mid, acts[|acts| - 1], s');
      assert Evolves(mid.now, Look(mid, o), Look(s', o));
      assert Look(mid, o).row == Some(mid.rows[o]);
    }
  }

  /** Cancellation is a one-way compare-and-swap: in every run at most one UPDATE cancels a
      row, never before its expiry; the version counts it; the cancelled event is attempted
      at most once, and only for a cancelled row; and later steps never undo it. */
  lemma CancelledOnce(c: Config, s0: State, acts: seq<Action>, more: seq<Action>, o: OrderId, s: State, s': State)
    requires Start(s0) && s == Run(c, s0, acts) && s' == Run(c, s, more)
    ensures s.hist.announced[o] <= s.hist.cancelCount[o] <= 1
    ensures s.hist.cancelCount[o] == 1 <==> o in s.rows && s.rows[o].status == Cancelled
    ensures o in s.rows ==>
      && s.rows[o].version == 1 + s.hist.cancelCount[o]
      && (s.rows[o].status == Cancelled ==>
            o in s.hist.cancelledAt && s.rows[o].expires <= s.hist.cancelledAt[o] <= s.now)
      && o in s'.rows && RowLater(s.rows[o], s'.rows[o])
  {
    StartInv(c, s0);
    RunKeeps(c, s0, acts);
    assert OrderInv(c, s, o);
    assert CancelInv(Look(s, o), s.now);
    if o in s.rows {
      RowForever(c, s, more, o);
    }
  }

  // ---- what other processes leave alone

  lemma EnvironmentKeepsPlaces(c: Config, s: State, a: Action, x: OrderId, s': State)
    requires !a.PlaceStep? && !a.JobStep? && s' == Apply(c, s, a) && x in s.places
    ensures x in s'.places && s'.places[x] == s.places[x]
  {
  }

  lemma EnvironmentKeepsJobs(c: Config, s: State, a: Action, s': State)
    requires !a.PlaceStep? && !a.JobStep? && s' == Apply(c, s, a)
    ensures s.jobs <= s'.jobs && |s'.jobs| <= |s.jobs| + 1
    ensures |s'.jobs| > |s.jobs| && s'.jobs[|s.jobs|].Timeout? ==> s'.jobs[|s.jobs|].tpc.Guard?
  {
  }

  lemma EnvironmentKeepsGuards(c: Config, s: State, a: Action, s': State)
    requires !a.PlaceStep? && !a.JobStep? && s' == Apply(c, s, a)
    ensures s'.guards == s.guards
  {
  }

  lemma EnvironmentKeepsAcks(c: Config, s: State, a: Action, s': State)
    requires !a.PlaceStep? && !a.JobStep? && !a.DeadLetter? && s' == Apply(c, s, a)
    ensures s'.hist == s.hist
  {
  }

  /** A call of `Place` is moved only by its own steps. */
  lemma OthersKeepPlace(c: Config, s: State, a: Action, o: OrderId, s': State)
    requires Inv(c, s) && s' == Apply(c, s, a) && o in s.places
    requires !(a.PlaceStep? && a.order == o)
    ensures o in s'.places && s'.places[o] == s.places[o]
  {
    if a.PlaceStep? {
      if a.order in s.places {
        PlaceStepKeeps(c, s, a.order, a.oc, s');
        assert Look(s', o).place == Look(s, o).place;
      }
    } else if a.JobStep? {
      if a.job < |s.jobs| {
        JobStepKeeps(c, s, a.job, a.oc, a.page, s');
        assert SamePlace(Look(s, o), Look(s', o));
      }
    } else {
      EnvironmentKeepsPlaces(c, s, a, o, s');
    }
  }

  /** A job is moved only by its own steps. */
  lemma OthersKeepJob(c: Config, s: State, a: Action, i: nat, s': State)
    requires Inv(c, s) && s' == Apply(c, s, a) && i < |s.jobs|
    requires !(a.JobStep? && a.job == i)
    ensures i < |s'.jobs| && s'.jobs[i] == s.jobs[i]
  {
    if a.PlaceStep? {
      if a.order in s.places {
        PlaceStepKeeps(c, s, a.order, a.oc, s');
      }
    } else if a.JobStep? {
      if a.job < |s.jobs| {
        JobStepKeeps(c, s, a.job, a.oc, a.page, s');
      }
    } else {
      EnvironmentKeepsJobs(c, s, a, s');
    }
  }

  /** Neither a dead letter nor a publish that is stored with its reply lost. */
  predicate Clean(s: State, a: Action) {
    && !a.DeadLetter?
    && (a.PlaceStep? && a.oc.Lost? && a.order in s.places ==> !s.places[a.order].pc.Publish?)
  }

  ghost predicate CleanRun(c: Config, s: State, acts: seq<Action>) {
    forall k | 0 <= k < |acts| :: Clean(Run(c, s, acts[..k]), acts[k])
  }

  lemma CleanStep(c: Config, s: State, a: Action, o: OrderId, s': State)
    requires Inv(c, s) && s' == Apply(c, s, a)
    requires Clean(s, a)
    ensures Look(s', o).unacked == Look(s, o).unacked && Look(s', o).dead == Look(s, o).dead
  {
    if a.PlaceStep? {
      if a.order in s.places {
        PlaceStepKeeps(c, s, a.order, a.oc, s');
      }
    } else if a.JobStep? {
      if a.job < |s.jobs| {
        JobStepKeeps(c, s, a.job, a.oc, a.page, s');
        assert SamePlace(Look(s, o), Look(s', o));
      }
    } else {
      EnvironmentKeepsAcks(c, s, a, s');
    }
  }

  lemma {:induction false} CleanRunOf(c: Config, s0: State, acts: seq<Action>, o: OrderId)
    requires Start(s0) && CleanRun(c, s0, acts)
    ensures o !in Run(c, s0, acts).hist.unacked && o !in Run(c, s0, acts).hist.deadLettered
  {
    if acts != [] {
      var before := acts[..|acts| - 1];
      assert CleanRun(c, s0, before) by {
        forall k | 0 <= k < |before|
          ensures Clean(Run(c, s0, before[..k]), before[k])
        {
          assert before[..k] == acts[..k] && acts[k] == before[k];
        }
      }
      assert acts[..|acts| - 1] == before;
      CleanRunOf(c, s0, before, o);
      StartInv(c, s0);
      RunKeeps(c, s0, before);
      CleanStep(c, Run(c, s0, before), acts[|acts| - 1], o, Run(c, s0, acts));
    }
  }

  /** In a run where no publish of `Place` is stored with its reply lost and no dead letter
      arrives, live orders plus shelf stock never exceed the seeded stock. */
  lemma CleanRunNeverOversells(c: Config, s0: State, acts: seq<Action>, sku: Sku, s: State)
    requires Start(s0) && s == Run(c, s0, acts) && CleanRun(c, s0, acts)
    ensures |Live(s, sku)| + Total(s.stock, sku, c.shards) <= Total(s0.stock, sku, c.shards)
  {
    NoOversell(c, s0, acts, sku, s);
    forall o
      ensures o !in s.hist.unacked && o !in s.hist.deadLettered
    {
      CleanRunOf(c, s0, acts, o);
    }
  }
}
