/** What a call of `Place` does by itself, whatever errors its commands meet: which reply of which
    command ends its check of the latch, its sweep, its write of RESERVED, its publish and its
    refund, and what it has done to the stores by then (internal/order/service.go and
    internal/inventory/router.go). */
module OrderCalls {
  import opened Common
  import opened Inventory
  import opened OrderModel
  import opened OrderInvariants
  import opened OrderSteps

  /** The next commands of the call, with these outcomes. */
  function Calls(o: OrderId, outs: seq<Outcome>): seq<Action> {
    if outs == [] then [] else Calls(o, outs[..|outs| - 1]) + [PlaceStep(o, outs[|outs| - 1])]
  }

  lemma LastCall(c: Config, s: State, o: OrderId, outs: seq<Outcome>)
    requires outs != []
    ensures var n := |outs| - 1;
      Run(c, s, Calls(o, outs)) == Apply(c, Run(c, s, Calls(o, outs[..n])), PlaceStep(o, outs[n]))
  {
    RunAppend(c, s, Calls(o, outs[..|outs| - 1]), PlaceStep(o, outs[|outs| - 1]));
  }

  function Moved(s: State, o: OrderId, pc: PlacePc): map<OrderId, Place>
    requires o in s.places
  {
    s.places[o := s.places[o].(pc := pc)]
  }

  // ---- the latch

  /** A set latch refuses the call if the reply arrives; an error reads as "not sold out". */
  lemma LatchRefusesIff(c: Config, s: State, o: OrderId, oc: Outcome, s': State)
    requires o in s.places && s.places[o].pc == CheckLatch && s' == Apply(c, s, PlaceStep(o, oc))
    ensures s' == s.(places := Moved(s, o, if oc == Ok && s.places[o].sku in s.soldOut then SoldOut else Sweep(0)))
  {
  }

  // ---- the sweep

  /** The shard at this distance from the user's own. */
  function KeyAt(c: Config, s: State, o: OrderId, offset: nat): InvKey
    requires o in s.places
  {
    Shard(s.places[o].sku, (c.hash(s.places[o].user) % c.shards + offset) % c.shards)
  }

  lemma ProbeIs(c: Config, s: State, o: OrderId, offset: nat, oc: Outcome, s': State)
    requires o in s.places && s.places[o].pc == Sweep(offset) && NonNegative(s.stock) && s' == Apply(c, s, PlaceStep(o, oc))
    ensures var key := KeyAt(c, s, o, offset);
      && NonNegative(s'.stock)
      && (forall k :: At(s'.stock, k) == At(s.stock, k) - if k == key && oc.TookEffect() && At(s.stock, key) > 0 then 1 else 0)
      && s'.places == Moved(s, o,
           if oc == Open then SoldOut
           else if oc == Ok && At(s.stock, key) > 0 then Mark(key)
           else if offset + 1 < c.shards then Sweep(offset + 1) else Latch)
      && s' == s.(stock := s'.stock, places := s'.places, hist := s'.hist)
  {
    assert s' == SweepStep(c, s, o, offset, oc);
    ReserveStockTakesOneIfAny(s.stock, KeyAt(c, s, o, offset));
  }

  /** The probe ends nothing: it is not refused, and it does not report a unit. */
  predicate Misses(c: Config, s: State, o: OrderId, offset: nat, oc: Outcome)
    requires o in s.places
  {
    oc != Open && !(oc == Ok && At(s.stock, KeyAt(c, s, o, offset)) > 0)
  }

  /** A unit of the counter is gone: a probe of it took effect and there was one. */
  predicate TakenBy(c: Config, s: State, o: OrderId, outs: seq<Outcome>, k: InvKey)
    requires o in s.places
  {
    At(s.stock, k) > 0 && exists e: nat | e < |outs| :: outs[e].TookEffect() && KeyAt(c, s, o, e) == k
  }

  /** Where a sweep is after these probes, of which all but the last have missed. */
  function SweepEnd(c: Config, s: State, o: OrderId, outs: seq<Outcome>): PlacePc
    requires o in s.places
  {
    if outs == [] then Sweep(0)
    else
      var d := |outs| - 1;
      if outs[d] == Open then SoldOut
      else if outs[d] == Ok && At(s.stock, KeyAt(c, s, o, d)) > 0 then Mark(KeyAt(c, s, o, d))
      else if |outs| < c.shards then Sweep(|outs|) else Latch
  }

  ghost predicate SweptAs(c: Config, s: State, o: OrderId, outs: seq<Outcome>, t: State)
    requires o in s.places
  {
    && t.places == Moved(s, o, SweepEnd(c, s, o, outs)) && NonNegative(t.stock)
    && (forall k :: At(t.stock, k) == At(s.stock, k) - if TakenBy(c, s, o, outs, k) then 1 else 0)
    && t == s.(stock := t.stock, places := t.places, hist := t.hist)
  }

  lemma SweepsOneMore(c: Config, s: State, o: OrderId, outs: seq<Outcome>, d: nat, mid: State, t: State)
    requires o in s.places && |outs| == d + 1 <= c.shards && (d > 0 ==> Misses(c, s, o, d - 1, outs[d - 1]))
    requires SweptAs(c, s, o, outs[..d], mid) && t == Apply(c, mid, PlaceStep(o, outs[d]))
    ensures SweptAs(c, s, o, outs, t)
  {
    ProbeIs(c, mid, o, d, outs[d], t);
    NotProbedBefore(c, s, o, outs, d);
    assert t.places == Moved(s, o, SweepEnd(c, s, o, outs));
    forall k
      ensures At(t.stock, k) == At(s.stock, k) - if TakenBy(c, s, o, outs, k) then 1 else 0
    {
      OneMoreProbe(c, s, o, outs, d, k);
    }
  }

  /** A sweep goes on from shard to shard, past empty ones and past errors, until a reply reports a
      unit or a breaker refuses the probe, which answers "sold out" at once; it sets the latch only
      after a probe of every shard. Each probe that takes effect on stock takes one unit, also
      when its reply is lost; nothing else changes. */
  lemma {:induction false} SweepAlone(c: Config, s: State, o: OrderId, outs: seq<Outcome>, t: State)
    requires NonNegative(s.stock) && o in s.places && s.places[o].pc == Sweep(0) && t == Run(c, s, Calls(o, outs))
    requires |outs| <= c.shards && forall e: nat | e + 1 < |outs| :: Misses(c, s, o, e, outs[e])
    ensures SweptAs(c, s, o, outs, t)
  {
    if outs == [] {
      assert Moved(s, o, Sweep(0)) == s.places;
    } else {
      var d := |outs| - 1;
      SweepAlone(c, s, o, outs[..d], Run(c, s, Calls(o, outs[..d])));
      LastCall(c, s, o, outs);
      SweepsOneMore(c, s, o, outs, d, Run(c, s, Calls(o, outs[..d])), t);
    }
  }

  lemma NotProbedBefore(c: Config, s: State, o: OrderId, outs: seq<Outcome>, d: nat)
    requires o in s.places && d < |outs| <= c.shards
    ensures !TakenBy(c, s, o, outs[..d], KeyAt(c, s, o, d))
  {
    forall e: nat | e < d
      ensures KeyAt(c, s, o, e) != KeyAt(c, s, o, d)
    {
      if KeyAt(c, s, o, e) == KeyAt(c, s, o, d) { ProbeDistinct(Home(c, s.places[o].user), c.shards, e, d); }
    }
  }

  lemma OneMoreProbe(c: Config, s: State, o: OrderId, outs: seq<Outcome>, d: nat, k: InvKey)
    requires o in s.places && |outs| == d + 1
    ensures TakenBy(c, s, o, outs, k) <==>
            TakenBy(c, s, o, outs[..d], k) || (At(s.stock, k) > 0 && outs[d].TookEffect() && KeyAt(c, s, o, d) == k)
  {
    forall e: nat | e < d
      ensures outs[..d][e] == outs[e]
    {
    }
  }

  // ---- RESERVED

  /** The write of RESERVED: any error leads to the refund, and the cell is written for the
      reservation's time to live if the command took effect. */
  lemma MarkIs(c: Config, s: State, o: OrderId, key: InvKey, oc: Outcome, s': State)
    requires o in s.places && s.places[o].pc == Mark(key) && s' == Apply(c, s, PlaceStep(o, oc))
    ensures s'.places == Moved(s, o, if oc == Ok then Publish(key, 0) else Refunding(key, Release))
    ensures s'.cells == if oc.TookEffect() then s.cells[o := Reserved(s.now + c.reservationTTL)] else s.cells
    ensures s' == s.(cells := s'.cells, places := s'.places, hist := s'.hist)
  {
    assert s' == MarkStep(c, s, o, key, oc);
  }

  // ---- the publish

  lemma AttemptIs(c: Config, s: State, o: OrderId, key: InvKey, attempt: nat, oc: Outcome, s': State)
    requires o in s.places && s.places[o].pc == Publish(key, attempt) && s' == Apply(c, s, PlaceStep(o, oc))
    ensures s'.places == Moved(s, o,
      if oc == Ok then Placed
      else if oc == Open || attempt >= 2 then Refunding(key, Release) else Publish(key, attempt + 1))
    ensures s'.stream == if oc.TookEffect() then s.stream[o := Ordered(s, o, key)] else s.stream
    ensures s' == s.(stream := s'.stream, places := s'.places, hist := s'.hist)
  {
    assert s' == PublishStep(s, o, key, attempt, oc);
  }

  /** The event of the order, with the shard that was decremented. */
  function Ordered(s: State, o: OrderId, key: InvKey): Event
    requires o in s.places
  {
    var p := s.places[o];
    Event(o, p.user, p.event, p.sku, p.qty, Some(key))
  }

  function PublishEnd(key: InvKey, outs: seq<Outcome>): PlacePc {
    if outs == [] then Publish(key, 0)
    else if outs[|outs| - 1] == Ok then Placed
    else if outs[|outs| - 1] == Open || |outs| >= 3 then Refunding(key, Release)
    else Publish(key, |outs|)
  }

  ghost predicate PublishedAs(s: State, o: OrderId, key: InvKey, outs: seq<Outcome>, t: State)
    requires o in s.places
  {
    && t.places == Moved(s, o, PublishEnd(key, outs))
    && t.stream == (if exists e: nat | e < |outs| :: outs[e].TookEffect() then s.stream[o := Ordered(s, o, key)] else s.stream)
    && t == s.(stream := t.stream, places := t.places, hist := t.hist)
  }

  lemma PublishesOneMore(c: Config, s: State, o: OrderId, key: InvKey, outs: seq<Outcome>, d: nat, mid: State, t: State)
    requires o in s.places && |outs| == d + 1 <= 3 && (d > 0 ==> outs[d - 1] in {Failed, Lost})
    requires PublishedAs(s, o, key, outs[..d], mid) && t == Apply(c, mid, PlaceStep(o, outs[d]))
    ensures PublishedAs(s, o, key, outs, t)
  {
    AttemptIs(c, mid, o, key, d, outs[d], t);
    assert t.places == Moved(s, o, PublishEnd(key, outs));
    AnyOfMore(outs, d);
  }

  /** A publish is tried three times at most: an acknowledgement ends it well, a refusal or the
      third error in the refund; the event is stored if any attempt took effect, acknowledged or
      not. */
  lemma {:induction false} PublishAlone(c: Config, s: State, o: OrderId, key: InvKey, outs: seq<Outcome>, t: State)
    requires o in s.places && s.places[o].pc == Publish(key, 0) && t == Run(c, s, Calls(o, outs))
    requires |outs| <= 3 && forall e: nat | e + 1 < |outs| :: outs[e] in {Failed, Lost}
    ensures PublishedAs(s, o, key, outs, t)
  {
    if outs == [] {
      assert Moved(s, o, Publish(key, 0)) == s.places;
    } else {
      var d := |outs| - 1;
      PublishAlone(c, s, o, key, outs[..d], Run(c, s, Calls(o, outs[..d])));
      LastCall(c, s, o, outs);
      PublishesOneMore(c, s, o, key, outs, d, Run(c, s, Calls(o, outs[..d])), t);
    }
  }

  lemma AnyOfMore(outs: seq<Outcome>, d: nat)
    requires |outs| == d + 1
    ensures (exists e: nat | e < |outs| :: outs[e].TookEffect()) <==>
            outs[d].TookEffect() || exists e: nat | e < d :: outs[..d][e].TookEffect()
  {
    if e: nat :| e < d && outs[..d][e].TookEffect() { assert outs[e].TookEffect(); }
    if e: nat :| e < |outs| && outs[e].TookEffect() { assert e < d ==> outs[..d][e].TookEffect(); }
  }

  // ---- the refund

  /** The reservation still holds the unit. */
  predicate Held(s: State, o: OrderId) { o in s.cells && s.cells[o].Reserved? && s.now < s.cells[o].until }

  lemma ReleaseIs(c: Config, s: State, o: OrderId, key: InvKey, oc: Outcome, s': State)
    requires o in s.places && s.places[o].pc == Refunding(key, Release) && s' == Apply(c, s, PlaceStep(o, oc))
    ensures s'.places == Moved(s, o, if oc == Ok && Held(s, o) then Refunding(key, Unlatch) else Errored)
    ensures s'.stock == if oc.TookEffect() && Held(s, o) then Add(s.stock, key, 1) else s.stock
    ensures s'.cells == if oc.TookEffect() && Held(s, o) then s.cells[o := Cell.Compensated] else s.cells
    ensures s' == s.(stock := s'.stock, cells := s'.cells, places := s'.places, hist := s'.hist)
  {
  }

  lemma UnlatchIs(c: Config, s: State, o: OrderId, key: InvKey, oc: Outcome, s': State)
    requires o in s.places && s.places[o].pc == Refunding(key, Unlatch) && s' == Apply(c, s, PlaceStep(o, oc))
    ensures s'.places == Moved(s, o, Errored)
    ensures s'.soldOut == if oc.TookEffect() && key.sku != "" then s.soldOut - {key.sku} else s.soldOut
    ensures s' == s.(soldOut := s'.soldOut, places := s'.places, hist := s'.hist)
  {
  }

  /** A refund by itself: one unit goes back into the shard it came from iff the release takes
      effect while the cell holds it, and the latch of the SKU is cleared iff, besides, its reply
      arrives and the deletion takes effect, except for the empty SKU. */
  lemma RefundAlone(c: Config, s: State, o: OrderId, key: InvKey, release: Outcome, unlatch: Outcome, t: State)
    requires o in s.places && s.places[o].pc == Refunding(key, Release) && t == Run(c, s, Calls(o, [release, unlatch]))
    ensures t.places == Moved(s, o, Errored)
    ensures t.stock == if release.TookEffect() && Held(s, o) then Add(s.stock, key, 1) else s.stock
    ensures t.soldOut == if release == Ok && Held(s, o) && unlatch.TookEffect() && key.sku != "" then s.soldOut - {key.sku}
                         else s.soldOut
    ensures t == s.(stock := t.stock, cells := t.cells, soldOut := t.soldOut, places := t.places, hist := t.hist)
  {
    assert [release, unlatch][..1] == [release] && [release][..0] == [];
    LastCall(c, s, o, [release, unlatch]);
    LastCall(c, s, o, [release]);
    var mid := Run(c, s, Calls(o, [release]));
    ReleaseIs(c, s, o, key, release, mid);
    if mid.places[o].pc.Refunding? {
      UnlatchIs(c, mid, o, key, unlatch, t);
    } else {
      ErroredIsOver(c, mid, o, unlatch);
    }
  }

  lemma ErroredIsOver(c: Config, s: State, o: OrderId, oc: Outcome)
    requires o in s.places && s.places[o].pc == Errored
    ensures Apply(c, s, PlaceStep(o, oc)) == s
  {
  }
}
