/** The refund that a failed call of `Place` makes: when it restores its unit, and when nothing
    can any more. */
module OrderPlaceRefund {
  import opened Common
  import opened Inventory
  import opened OrderModel
  import opened OrderInvariants
  import opened OrderUnits
  import opened OrderTheorems

  /** When exactly the release of a failed `Place` call restores stock. */
  lemma PlaceRestoresIff(c: Config, s: State, o: OrderId, key: InvKey, oc: Outcome, s': State)
    requires Inv(c, s) && o in s.places && s.places[o].pc == Refunding(key, Release)
    requires s' == Apply(c, s, PlaceStep(o, oc))
    ensures var hit := oc.TookEffect() && Holds(s.cells, s.now, o);
      && s'.hist.refunds[o] == s.hist.refunds[o] + (if hit then 1 else 0)
      && At(s'.stock, key) == At(s.stock, key) + (if hit then 1 else 0)
      && RefundOf(c, s, PlaceStep(o, oc)) == if hit then Some(Refund(o, key, ByPlace)) else None
  {
    StepMovesUnits(c, s, PlaceStep(o, oc), s');
  }

  lemma QuietPlaceStep(c: Config, s: State, o: OrderId, oc: Outcome, s': State)
    requires o in s.places && s' == StepOfPlace(c, s, o, oc)
    requires var pc := s.places[o].pc; pc.CheckLatch? || pc.Latch? || pc.Placed? || pc.SoldOut?
    ensures o in s'.places && !PlaceRefunded(s'.places[o].pc)
  {
  }

  lemma SweepGoesOn(c: Config, s: State, o: OrderId, offset: nat, oc: Outcome)
    requires o in s.places
    ensures var s' := SweepStep(c, s, o, offset, oc); o in s'.places && !PlaceRefunded(s'.places[o].pc)
  {
  }

  lemma MarkGoesOn(c: Config, s: State, o: OrderId, key: InvKey, oc: Outcome)
    requires o in s.places
    ensures var s' := MarkStep(c, s, o, key, oc); o in s'.places && !PlaceRefunded(s'.places[o].pc)
  {
  }

  lemma PublishGoesOn(s: State, o: OrderId, key: InvKey, attempt: nat, oc: Outcome)
    requires o in s.places
    ensures var s' := PublishStep(s, o, key, attempt, oc); o in s'.places && !PlaceRefunded(s'.places[o].pc)
  {
  }

  lemma OnlyReleaseGetsPast(c: Config, s: State, o: OrderId, oc: Outcome, s': State)
    requires o in s.places && !PlaceRefunded(s.places[o].pc) && s' == StepOfPlace(c, s, o, oc)
    ensures o in s'.places && (PlaceRefunded(s'.places[o].pc) ==> s.places[o].pc.Refunding?)
  {
    var pc := s.places[o].pc;
    if pc.Sweep? {
      assert s' == SweepStep(c, s, o, pc.offset, oc);
      SweepGoesOn(c, s, o, pc.offset, oc);
    } else if pc.Mark? {
      assert s' == MarkStep(c, s, o, pc.key, oc);
      MarkGoesOn(c, s, o, pc.key, oc);
    } else if pc.Publish? {
      assert s' == PublishStep(s, o, pc.key, pc.attempt, oc);
      PublishGoesOn(s, o, pc.key, pc.attempt, oc);
    } else if pc.Refunding? {
      RefundingStays(c, s, o, oc, s');
    } else {
      QuietPlaceStep(c, s, o, oc, s');
    }
  }

  lemma RefundingStays(c: Config, s: State, o: OrderId, oc: Outcome, s': State)
    requires o in s.places && s.places[o].pc.Refunding? && s' == StepOfPlace(c, s, o, oc)
    ensures o in s'.places
  {
  }

  lemma NewPlacesBegin(c: Config, s: State, a: Action, o: OrderId, s': State)
    requires Inv(c, s) && s' == Apply(c, s, a) && o !in s.places
    ensures o in s'.places ==> s'.places[o].pc == CheckLatch
  {
    if a.PlaceStep? {
      if a.order in s.places {
        PlaceStepKeeps(c, s, a.order, a.oc, s');
        assert Look(s', o).place == Look(s, o).place;
      }
    } else if a.JobStep? && a.job < |s.jobs| {
      JobStepKeeps(c, s, a.job, a.oc, a.page, s');
      assert SamePlace(Look(s, o), Look(s', o));
    }
  }

  /** A call of Place gets past its release only by making that step. */
  lemma GetsPastRelease(c: Config, s: State, a: Action, o: OrderId, s': State)
    requires Inv(c, s) && s' == Apply(c, s, a) && o in s'.places && PlaceRefunded(s'.places[o].pc)
    requires o in s.places ==> !PlaceRefunded(s.places[o].pc)
    ensures a.PlaceStep? && a.order == o && o in s.places && s.places[o].pc.Refunding? && s.places[o].pc.cpc.Release?
  {
    if o !in s.places {
      NewPlacesBegin(c, s, a, o, s');
    } else if a.PlaceStep? && a.order == o {
      OnlyReleaseGetsPast(c, s, o, a.oc, s');
    } else {
      OthersKeepPlace(c, s, a, o, s');
    }
  }

  /** Step `k` of the run is the release of the call of Place for order `o`. */
  ghost predicate PlaceReleasesAt(c: Config, s: State, acts: seq<Action>, k: nat, o: OrderId) {
    && k < |acts| && acts[k].PlaceStep? && acts[k].order == o
    && var t := Run(c, s, acts[..k]);
       o in t.places && t.places[o].pc.Refunding? && t.places[o].pc.cpc.Release?
  }

  /** Every call of Place that ended with an error has made one release, and its unit counts as
      put back by Place exactly when that step reached Redis while the cell held the unit: not
      when Redis was down, the cell had expired, or a worker had written PUBLISHED. */
  lemma {:induction false} ErroredIsRestoredIff(c: Config, s0: State, acts: seq<Action>, o: OrderId) returns (k: nat)
    requires Start(s0) && o in Run(c, s0, acts).places && PlaceRefunded(Run(c, s0, acts).places[o].pc)
    ensures PlaceReleasesAt(c, s0, acts, k, o)
    ensures Find(Run(c, s0, acts).hist.refundedBy, o) == Some(ByPlace) <==>
            PutsBack(Run(c, s0, acts[..k]), o, acts[k].oc)
  {
    StartInv(c, s0);
    var n := |acts| - 1;
    var before, a := acts[..n], acts[n];
    RunKeeps(c, s0, before);
    var s, s' := Run(c, s0, before), Run(c, s0, acts);
    StepMovesUnits(c, s, a, s');
    if o in s.places && PlaceRefunded(s.places[o].pc) {
      k := ErroredIsRestoredIff(c, s0, before, o);
      assert before[..k] == acts[..k] && before[k] == acts[k];
      RefundedByIff(c, s0, before, o, ByPlace);
      PastPlaceRefunds(c, s, a, o, s');
    } else {
      k := n;
      GetsPastRelease(c, s, a, o, s');
      RefundedByIff(c, s0, before, o, ByPlace);
      NotYetRefundedByPlace(c, s, o);
    }
  }

  lemma PastPlaceRefunds(c: Config, s: State, a: Action, o: OrderId, s': State)
    requires Inv(c, s) && MovesUnits(c, s, a, s') && o in s.places && PlaceRefunded(s.places[o].pc)
    requires Find(s.hist.refundedBy, o).Some? <==> s.hist.refunds[o] == 1
    ensures Find(s'.hist.refundedBy, o) == Some(ByPlace) <==> Find(s.hist.refundedBy, o) == Some(ByPlace)
  {
    RefundIsFirst(c, s, a, o);
  }

  lemma NotYetRefundedByPlace(c: Config, s: State, o: OrderId)
    requires Inv(c, s) && o in s.places && !PlaceRefunded(s.places[o].pc)
    requires Find(s.hist.refundedBy, o).Some? <==> s.hist.refunds[o] == 1
    ensures Find(s.hist.refundedBy, o) != Some(ByPlace)
  {
    assert OrderInv(c, s, o);
    assert Look(s, o).place == Some(s.places[o]) && Look(s, o).refunds == s.hist.refunds[o];
    assert Look(s, o).refundedBy == Find(s.hist.refundedBy, o);
  }

  /** The write of RESERVED makes a unit refundable exactly when it takes effect: otherwise
      the cell is missing and no later step of any process puts the unit back. */
  lemma MarkDecidesRefund(c: Config, s: State, o: OrderId, key: InvKey, oc: Outcome, s1: State, more: seq<Action>)
    requires Inv(c, s) && o in s.places && s.places[o].pc == Mark(key) && s1 == Apply(c, s, PlaceStep(o, oc))
    ensures Holds(s1.cells, s1.now, o) <==> oc.TookEffect()
    ensures !oc.TookEffect() ==> Run(c, s1, more).hist.refunds[o] == s.hist.refunds[o] == 0
  {
    assert s1 == MarkStep(c, s, o, key, oc);
    MarkEffect(c, s, o, key, oc, s1);
    StepKeeps(c, s, PlaceStep(o, oc), s1);
    assert OrderInv(c, s, o);
    assert Look(s, o).cell == Find(s.cells, o) == None;
    assert Look(s1, o).cell == Find(s1.cells, o) && Look(s1, o).refunds == Look(s, o).refunds;
    if !oc.TookEffect() {
      SettledForever(c, s1, more, o);
    }
  }
}
