/** Which steps take a unit from a shard and which put one back, and what that adds up to
    over a run, shard by shard and order by order. */
module OrderUnits {
  import opened Common
  import opened Inventory
  import opened OrderModel
  import opened OrderInvariants

  datatype Refund = Refund(order: OrderId, key: InvKey, party: Party)

  /** The release script reaches Redis and finds the unit. */
  predicate PutsBack(s: State, o: OrderId, oc: Outcome) { oc.TookEffect() && Holds(s.cells, s.now, o) }

  /** The refund that an action makes. */
  function RefundOf(c: Config, s: State, a: Action): Option<Refund> {
    match a
    case PlaceStep(o, oc) =>
      if o in s.places && s.places[o].pc.Refunding? && s.places[o].pc.cpc.Release? && PutsBack(s, o, oc)
      then Some(Refund(o, s.places[o].pc.key, ByPlace)) else None
    case JobStep(i, oc, _) => if i < |s.jobs| then JobRefund(c, s, s.jobs[i], oc) else None
    case _ => None
  }

  function JobRefund(c: Config, s: State, job: Job, oc: Outcome): Option<Refund> {
    match job
    case Timeout(o, Restock(key, Release), _) => if PutsBack(s, o, oc) then Some(Refund(o, key, ByTimeout)) else None
    case Dlq(ev, Release) => if PutsBack(s, ev.order, oc) then Some(Refund(ev.order, DlqKey(c, ev), ByDlq)) else None
    case _ => None
  }

  /** The shard that an action decrements, whether or not the reply arrives. */
  function TakeOf(c: Config, s: State, a: Action): Option<InvKey> {
    if a.PlaceStep? && a.order in s.places && s.places[a.order].pc.Sweep? && a.oc.TookEffect() then
      var p := s.places[a.order];
      var key := Probe(p.sku, Home(c, p.user), p.pc.offset, c.shards);
      if At(s.stock, key) > 0 then Some(key) else None
    else None
  }

  function One<T(==)>(x: Option<T>, y: T): int { if x == Some(y) then 1 else 0 }

  function KeyOf(r: Option<Refund>): Option<InvKey> { if r.Some? then Some(r.value.key) else None }

  /** What a refund does to the counters and to the bookkeeping. */
  ghost predicate Refunds(s: State, s': State, r: Option<Refund>) {
    && s'.stock == (if r.Some? then Add(s.stock, r.value.key, 1) else s.stock)
    && s'.hist.refunds == (if r.Some? then s.hist.refunds + multiset{r.value.order} else s.hist.refunds)
    && s'.hist.refundedBy == (if r.Some? then s.hist.refundedBy[r.value.order := r.value.party] else s.hist.refundedBy)
  }

  // ---- step by step

  lemma CompensateRefunds(s: State, o: OrderId, key: InvKey, who: Party, cpc: CompPc, oc: Outcome, s': State)
    requires s' == Compensate(s, o, key, who, cpc, oc)
    ensures Refunds(s, s', if cpc.Release? && PutsBack(s, o, oc) then Some(Refund(o, key, who)) else None)
  {
  }

  lemma RefundingRefunds(c: Config, s: State, o: OrderId, key: InvKey, cpc: CompPc, oc: Outcome, s': State)
    requires o in s.places && s.places[o].pc == Refunding(key, cpc) && s' == StepOfPlace(c, s, o, oc)
    ensures Refunds(s, s', RefundOf(c, s, PlaceStep(o, oc)))
  {
    CompensateRefunds(s, o, key, ByPlace, cpc, oc, Compensate(s, o, key, ByPlace, cpc, oc));
  }

  lemma MarkRefunds(c: Config, s: State, o: OrderId, key: InvKey, oc: Outcome)
    requires o in s.places
    ensures Refunds(s, MarkStep(c, s, o, key, oc), None)
  {
  }

  lemma PublishRefunds(s: State, o: OrderId, key: InvKey, attempt: nat, oc: Outcome)
    requires o in s.places
    ensures Refunds(s, PublishStep(s, o, key, attempt, oc), None)
  {
  }

  lemma LatchRefunds(c: Config, s: State, o: OrderId, oc: Outcome)
    requires o in s.places && (s.places[o].pc.CheckLatch? || s.places[o].pc.Latch?)
    ensures Refunds(s, StepOfPlace(c, s, o, oc), None)
  {
  }

  lemma PlaceRefunds(c: Config, s: State, o: OrderId, oc: Outcome, s': State)
    requires o in s.places && !s.places[o].pc.Sweep? && s' == StepOfPlace(c, s, o, oc)
    ensures Refunds(s, s', RefundOf(c, s, PlaceStep(o, oc)))
  {
    var pc := s.places[o].pc;
    if pc.Refunding? {
      RefundingRefunds(c, s, o, pc.key, pc.cpc, oc, s');
    } else if pc.Mark? {
      assert s' == MarkStep(c, s, o, pc.key, oc);
      MarkRefunds(c, s, o, pc.key, oc);
    } else if pc.Publish? {
      assert s' == PublishStep(s, o, pc.key, pc.attempt, oc);
      PublishRefunds(s, o, pc.key, pc.attempt, oc);
    } else if pc.CheckLatch? || pc.Latch? {
      LatchRefunds(c, s, o, oc);
    }
  }

  lemma SweepTakes(c: Config, s: State, o: OrderId, offset: nat, oc: Outcome, s': State, k: InvKey)
    requires o in s.places && s.places[o].pc == Sweep(offset) && NonNegative(s.stock)
    requires s' == SweepStep(c, s, o, offset, oc)
    ensures At(s'.stock, k) == At(s.stock, k) - One(TakeOf(c, s, PlaceStep(o, oc)), k)
    ensures s'.hist.refunds == s.hist.refunds && s'.hist.refundedBy == s.hist.refundedBy
  {
    var key := Probe(s.places[o].sku, Home(c, s.places[o].user), offset, c.shards);
    ReserveStockTakesOneIfAny(s.stock, key);
  }

  lemma InsertRefunds(c: Config, s: State, i: nat, ev: Event, expires: int, oc: Outcome, s': State)
    requires i < |s.jobs| && s' == InsertStep(c, s, i, ev, expires, oc)
    ensures Refunds(s, s', None)
  {
  }

  lemma LateHandleRefunds(s: State, i: nat, ev: Event, expires: int, attempt: nat, oc: Outcome)
    requires i < |s.jobs|
    ensures Refunds(s, FlipStep(s, i, ev, expires, oc), None) && Refunds(s, ArmStep(s, i, ev, expires, attempt, oc), None)
  {
  }

  lemma HandleRefunds(c: Config, s: State, i: nat, oc: Outcome, s': State)
    requires i < |s.jobs| && s.jobs[i].Handle? && s' == HandleStep(c, s, i, oc)
    ensures Refunds(s, s', None)
  {
    var Handle(ev, expires, pc) := s.jobs[i];
    if pc.Insert? {
      InsertRefunds(c, s, i, ev, expires, oc, s');
    } else {
      LateHandleRefunds(s, i, ev, expires, if pc.Arm? then pc.attempt else 0, oc);
    }
  }

  lemma CancelRefunds(c: Config, s: State, i: nat, o: OrderId, user: UserId, sku: Sku, rest: seq<OrderId>, oc: Outcome)
    requires i < |s.jobs|
    ensures Refunds(s, CancelStep(c, s, i, o, user, sku, rest, oc), None)
  {
  }

  lemma QuietTimeoutRefunds(c: Config, s: State, i: nat, oc: Outcome)
    requires i < |s.jobs| && s.jobs[i].Timeout?
    requires s.jobs[i].tpc.Guard? || s.jobs[i].tpc.Get? || s.jobs[i].tpc.Announce?
    ensures Refunds(s, TimeoutStep(c, s, i, oc), None)
  {
  }

  lemma RestockRefunds(c: Config, s: State, i: nat, oc: Outcome, s': State)
    requires i < |s.jobs| && s.jobs[i].Timeout? && s.jobs[i].tpc.Restock? && s' == TimeoutStep(c, s, i, oc)
    ensures Refunds(s, s', JobRefund(c, s, s.jobs[i], oc))
  {
    var Timeout(o, Restock(key, cpc), rest) := s.jobs[i];
    CompensateRefunds(s, o, key, ByTimeout, cpc, oc, Compensate(s, o, key, ByTimeout, cpc, oc));
  }

  lemma TimeoutRefunds(c: Config, s: State, i: nat, oc: Outcome, s': State)
    requires i < |s.jobs| && s.jobs[i].Timeout? && s' == TimeoutStep(c, s, i, oc)
    ensures Refunds(s, s', JobRefund(c, s, s.jobs[i], oc))
  {
    var Timeout(o, pc, rest) := s.jobs[i];
    if pc.Cancel? {
      assert s' == CancelStep(c, s, i, o, pc.user, pc.sku, rest, oc);
      CancelRefunds(c, s, i, o, pc.user, pc.sku, rest, oc);
    } else if pc.Restock? {
      RestockRefunds(c, s, i, oc, s');
    } else {
      QuietTimeoutRefunds(c, s, i, oc);
    }
  }

  lemma DlqRefunds(c: Config, s: State, i: nat, oc: Outcome, page: seq<OrderId>, s': State)
    requires i < |s.jobs| && s.jobs[i].Dlq? && s' == StepOfJob(c, s, i, oc, page)
    ensures Refunds(s, s', JobRefund(c, s, s.jobs[i], oc))
  {
    var Dlq(ev, cpc) := s.jobs[i];
    var key := DlqKey(c, ev);
    CompensateRefunds(s, ev.order, key, ByDlq, cpc, oc, Compensate(s, ev.order, key, ByDlq, cpc, oc));
  }

  lemma ReconcilerRefunds(c: Config, s: State, i: nat, oc: Outcome, page: seq<OrderId>, s': State)
    requires i < |s.jobs| && (s.jobs[i].Lead? || s.jobs[i].Fetch? || s.jobs[i].Finished?)
    requires s' == StepOfJob(c, s, i, oc, page)
    ensures Refunds(s, s', None)
  {
  }

  lemma JobRefunds(c: Config, s: State, i: nat, oc: Outcome, page: seq<OrderId>, s': State)
    requires i < |s.jobs| && s' == StepOfJob(c, s, i, oc, page)
    ensures Refunds(s, s', JobRefund(c, s, s.jobs[i], oc))
  {
    if s.jobs[i].Handle? {
      assert s' == HandleStep(c, s, i, oc);
      HandleRefunds(c, s, i, oc, s');
    } else if s.jobs[i].Timeout? {
      assert s' == TimeoutStep(c, s, i, oc);
      TimeoutRefunds(c, s, i, oc, s');
    } else if s.jobs[i].Dlq? {
      DlqRefunds(c, s, i, oc, page, s');
    } else {
      ReconcilerRefunds(c, s, i, oc, page, s');
    }
  }

  lemma EnvironmentKeepsStock(c: Config, s: State, a: Action)
    requires !a.PlaceStep? && !a.JobStep?
    ensures Apply(c, s, a).stock == s.stock
  {
  }

  lemma EnvironmentKeepsBooks(c: Config, s: State, a: Action)
    requires !a.PlaceStep? && !a.JobStep?
    ensures Apply(c, s, a).hist.refunds == s.hist.refunds && Apply(c, s, a).hist.refundedBy == s.hist.refundedBy
  {
  }

  lemma EnvironmentRefunds(c: Config, s: State, a: Action, s': State)
    requires !a.PlaceStep? && !a.JobStep? && s' == Apply(c, s, a)
    ensures Refunds(s, s', None)
  {
    EnvironmentKeepsStock(c, s, a);
    EnvironmentKeepsBooks(c, s, a);
  }

  lemma RefundsMoveUnits(c: Config, s: State, a: Action, s': State)
    requires Refunds(s, s', RefundOf(c, s, a)) && TakeOf(c, s, a).None?
    ensures MovesUnits(c, s, a, s')
  {
  }

  /** One step, seen through the counters and the refund bookkeeping. */
  ghost predicate MovesUnits(c: Config, s: State, a: Action, s': State) {
    var r := RefundOf(c, s, a);
    && (forall k :: At(s'.stock, k) == At(s.stock, k) + One(KeyOf(r), k) - One(TakeOf(c, s, a), k))
    && s'.hist.refunds == (if r.Some? then s.hist.refunds + multiset{r.value.order} else s.hist.refunds)
    && s'.hist.refundedBy == (if r.Some? then s.hist.refundedBy[r.value.order := r.value.party] else s.hist.refundedBy)
  }

  /** Every step takes at most one unit, puts at most one back, and writes both down. */
  lemma StepMovesUnits(c: Config, s: State, a: Action, s': State)
    requires Inv(c, s) && s' == Apply(c, s, a)
    ensures MovesUnits(c, s, a, s')
  {
    if a.PlaceStep? {
      if a.order in s.places {
        if s.places[a.order].pc.Sweep? {
          var offset := s.places[a.order].pc.offset;
          assert s' == SweepStep(c, s, a.order, offset, a.oc);
          forall k { SweepTakes(c, s, a.order, offset, a.oc, s', k); }
        } else {
          PlaceRefunds(c, s, a.order, a.oc, s');
          RefundsMoveUnits(c, s, a, s');
        }
      }
    } else if a.JobStep? {
      if a.job < |s.jobs| {
        JobRefunds(c, s, a.job, a.oc, a.page, s');
        RefundsMoveUnits(c, s, a, s');
      }
    } else {
      EnvironmentRefunds(c, s, a, s');
      RefundsMoveUnits(c, s, a, s');
    }
  }

  /** The refunded shard belongs to the SKU that the order took. */
  lemma RefundsOwnSku(c: Config, s: State, a: Action)
    requires Inv(c, s) && RefundOf(c, s, a).Some?
    ensures var r := RefundOf(c, s, a).value;
      r.order in s.hist.wins && r.key.Shard? && r.key.sku == s.hist.wins[r.order].sku && r.key.index < c.shards
  {
    if a.PlaceStep? {
      assert OrderInv(c, s, a.order);
      assert Look(s, a.order).win == Some(s.places[a.order].pc.key);
    } else {
      JobKnows(c, s, a.job);
      JobKeyInRange(c, s, a.job);
    }
  }

  // ---- the account of one shard over a run

  /** How many units a run puts back into one shard, and how many it takes from it. */
  ghost function Returned(c: Config, s: State, acts: seq<Action>, k: InvKey): nat {
    if acts == [] then 0
    else
      var before := acts[..|acts| - 1];
      Returned(c, s, before, k) + One(KeyOf(RefundOf(c, Run(c, s, before), acts[|acts| - 1])), k)
  }

  ghost function Taken(c: Config, s: State, acts: seq<Action>, k: InvKey): nat {
    if acts == [] then 0
    else
      var before := acts[..|acts| - 1];
      Taken(c, s, before, k) + One(TakeOf(c, Run(c, s, before), acts[|acts| - 1]), k)
  }

  /** Each shard by itself: what is there is what was there, plus refunds to it, less what was
      taken from it. */
  lemma {:induction false} ShardAccount(c: Config, s: State, acts: seq<Action>, k: InvKey)
    requires Inv(c, s)
    ensures At(Run(c, s, acts).stock, k) == At(s.stock, k) + Returned(c, s, acts, k) - Taken(c, s, acts, k)
  {
    if acts != [] {
      var before := acts[..|acts| - 1];
      ShardAccount(c, s, before, k);
      RunKeeps(c, s, before);
      StepMovesUnits(c, Run(c, s, before), acts[|acts| - 1], Run(c, s, acts));
    }
  }

  // ---- the account of one SKU over a run

  /** The action puts back the unit of an order that took one of this SKU. */
  predicate ReturnsOf(c: Config, s: State, a: Action, sku: Sku) {
    var r := RefundOf(c, s, a);
    r.Some? && var won := Find(s.hist.wins, r.value.order); won.Some? && won.value.sku == sku
  }

  /** The action takes a unit for a call that buys this SKU. */
  predicate TakesOf(c: Config, s: State, a: Action, sku: Sku) {
    TakeOf(c, s, a).Some? && s.places[a.order].sku == sku
  }

  ghost function ReturnedOf(c: Config, s: State, acts: seq<Action>, sku: Sku): nat {
    if acts == [] then 0
    else
      var before := acts[..|acts| - 1];
      ReturnedOf(c, s, before, sku) + if ReturnsOf(c, Run(c, s, before), acts[|acts| - 1], sku) then 1 else 0
  }

  ghost function TakenOf(c: Config, s: State, acts: seq<Action>, sku: Sku): nat {
    if acts == [] then 0
    else
      var before := acts[..|acts| - 1];
      TakenOf(c, s, before, sku) + if TakesOf(c, Run(c, s, before), acts[|acts| - 1], sku) then 1 else 0
  }

  lemma MovedTotal(stock: Stock, stock': Stock, sku: Sku, n: nat, back: Option<InvKey>, taken: Option<InvKey>)
    requires forall k :: At(stock', k) == At(stock, k) + One(back, k) - One(taken, k)
    requires back.Some? ==> back.value.Shard? && back.value.index < n
    requires taken.Some? ==> taken.value.Shard? && taken.value.index < n
    ensures Total(stock', sku, n) == Total(stock, sku, n)
              + (if back.Some? && back.value.sku == sku then 1 else 0)
              - (if taken.Some? && taken.value.sku == sku then 1 else 0)
  {
    var mid := if back.Some? then Add(stock, back.value, 1) else stock;
    var end := if taken.Some? then Add(mid, taken.value, -1) else mid;
    if back.Some? { TotalAdd(stock, sku, n, back.value, 1); }
    if taken.Some? { TotalAdd(mid, sku, n, taken.value, -1); }
    TotalSame(end, stock', sku, n);
  }

  lemma StepTotal(c: Config, s: State, a: Action, sku: Sku, s': State)
    requires Inv(c, s) && s' == Apply(c, s, a)
    ensures Total(s'.stock, sku, c.shards) == Total(s.stock, sku, c.shards)
              + (if ReturnsOf(c, s, a, sku) then 1 else 0) - (if TakesOf(c, s, a, sku) then 1 else 0)
  {
    StepMovesUnits(c, s, a, s');
    if RefundOf(c, s, a).Some? { RefundsOwnSku(c, s, a); }
    MovedTotal(s.stock, s'.stock, sku, c.shards, KeyOf(RefundOf(c, s, a)), TakeOf(c, s, a));
  }

  /** Each SKU by itself, whichever shards its refunds go to: what its shards hold together is
      what they held, plus the refunds of orders that took a unit of it, less what calls buying
      it took. */
  lemma {:induction false} SkuAccount(c: Config, s: State, acts: seq<Action>, sku: Sku)
    requires Inv(c, s)
    ensures Total(Run(c, s, acts).stock, sku, c.shards) ==
            Total(s.stock, sku, c.shards) + ReturnedOf(c, s, acts, sku) - TakenOf(c, s, acts, sku)
  {
    if acts != [] {
      var before := acts[..|acts| - 1];
      SkuAccount(c, s, before, sku);
      RunKeeps(c, s, before);
      StepTotal(c, Run(c, s, before), acts[|acts| - 1], sku, Run(c, s, acts));
    }
  }

  // ---- the account of one order over a run

  /** Step `k` of the run is a release by `who` that puts the order's unit back. */
  ghost predicate RefundedAt(c: Config, s: State, acts: seq<Action>, k: nat, o: OrderId, who: Party)
    requires k < |acts|
  {
    var r := RefundOf(c, Run(c, s, acts[..k]), acts[k]);
    r.Some? && r.value.order == o && r.value.party == who
  }

  /** Some step of the run is. */
  ghost predicate RefundedIn(c: Config, s: State, acts: seq<Action>, o: OrderId, who: Party) {
    exists k: nat :: k < |acts| && RefundedAt(c, s, acts, k, o, who)
  }

  lemma RefundedAtPrefix(c: Config, s: State, acts: seq<Action>, n: nat, k: nat, o: OrderId, who: Party)
    requires k < n <= |acts|
    ensures RefundedAt(c, s, acts[..n], k, o, who) == RefundedAt(c, s, acts, k, o, who)
  {
    assert acts[..n][..k] == acts[..k] && acts[..n][k] == acts[k];
  }

  lemma RefundedBefore(c: Config, s: State, acts: seq<Action>, n: nat, o: OrderId, who: Party)
    requires n <= |acts| && RefundedIn(c, s, acts[..n], o, who)
    ensures RefundedIn(c, s, acts, o, who)
  {
    var k: nat :| k < |acts[..n]| && RefundedAt(c, s, acts[..n], k, o, who);
    RefundedAtPrefix(c, s, acts, n, k, o, who);
  }

  lemma RefundedEarlier(c: Config, s: State, acts: seq<Action>, n: nat, k: nat, o: OrderId, who: Party)
    requires k < n <= |acts| && RefundedAt(c, s, acts, k, o, who)
    ensures RefundedIn(c, s, acts[..n], o, who)
  {
    RefundedAtPrefix(c, s, acts, n, k, o, who);
  }

  lemma RefundedLast(c: Config, s: State, acts: seq<Action>, n: nat, o: OrderId, who: Party)
    requires n + 1 == |acts| && RefundedAt(c, s, acts, n, o, who)
    ensures RefundedIn(c, s, acts, o, who)
  {
  }

  lemma RefundedEarlierOrLast(c: Config, s: State, acts: seq<Action>, n: nat, k: nat, o: OrderId, who: Party)
    requires k <= n && n + 1 == |acts| && RefundedAt(c, s, acts, k, o, who)
    ensures RefundedIn(c, s, acts[..n], o, who) || RefundedAt(c, s, acts, n, o, who)
  {
    if k < n { RefundedEarlier(c, s, acts, n, k, o, who); }
  }

  lemma RefundedSomewhere(c: Config, s: State, acts: seq<Action>, n: nat, o: OrderId, who: Party)
    requires n + 1 == |acts| && RefundedIn(c, s, acts, o, who)
    ensures RefundedIn(c, s, acts[..n], o, who) || RefundedAt(c, s, acts, n, o, who)
  {
    var k: nat :| k < |acts| && RefundedAt(c, s, acts, k, o, who);
    RefundedEarlierOrLast(c, s, acts, n, k, o, who);
  }

  lemma LastOrBefore(c: Config, s: State, acts: seq<Action>, n: nat, o: OrderId, who: Party)
    requires n + 1 == |acts|
    ensures RefundedIn(c, s, acts, o, who) <==> RefundedIn(c, s, acts[..n], o, who) || RefundedAt(c, s, acts, n, o, who)
  {
    if RefundedIn(c, s, acts[..n], o, who) {
      RefundedBefore(c, s, acts, n, o, who);
    } else if RefundedAt(c, s, acts, n, o, who) {
      RefundedLast(c, s, acts, n, o, who);
    } else if RefundedIn(c, s, acts, o, who) {
      RefundedSomewhere(c, s, acts, n, o, who);
    }
  }

  /** A step that refunds an order finds it unrefunded. */
  lemma RefundIsFirst(c: Config, s: State, a: Action, o: OrderId)
    requires Inv(c, s)
    ensures s.hist.refunds[o] <= 1
    ensures RefundOf(c, s, a).Some? && RefundOf(c, s, a).value.order == o ==> s.hist.refunds[o] == 0
  {
    assert OrderInv(c, s, o);
    assert Look(s, o).cell == Find(s.cells, o) && Look(s, o).refunds == s.hist.refunds[o];
  }

  lemma RefundWrittenDown(c: Config, s: State, a: Action, o: OrderId, who: Party, s': State)
    requires Inv(c, s) && MovesUnits(c, s, a, s')
    requires Find(s.hist.refundedBy, o).Some? <==> s.hist.refunds[o] == 1
    ensures Find(s'.hist.refundedBy, o).Some? <==> s'.hist.refunds[o] == 1
    ensures var r := RefundOf(c, s, a);
      Find(s'.hist.refundedBy, o) == Some(who) <==>
      Find(s.hist.refundedBy, o) == Some(who) || (r.Some? && r.value.order == o && r.value.party == who)
  {
    RefundIsFirst(c, s, a, o);
  }

  /** In every run an order counts as refunded by a party exactly when one of that party's
      releases reached Redis while the cell held the unit. */
  lemma {:induction false} RefundedByIff(c: Config, s0: State, acts: seq<Action>, o: OrderId, who: Party)
    requires Start(s0)
    ensures Find(Run(c, s0, acts).hist.refundedBy, o) == Some(who) <==> RefundedIn(c, s0, acts, o, who)
    ensures Find(Run(c, s0, acts).hist.refundedBy, o).Some? <==> Run(c, s0, acts).hist.refunds[o] == 1
  {
    if acts != [] {
      var before, a := acts[..|acts| - 1], acts[|acts| - 1];
      RefundedByIff(c, s0, before, o, who);
      StartInv(c, s0);
      RunKeeps(c, s0, before);
      StepMovesUnits(c, Run(c, s0, before), a, Run(c, s0, acts));
      RefundWrittenDown(c, Run(c, s0, before), a, o, who, Run(c, s0, acts));
      LastOrBefore(c, s0, acts, |acts| - 1, o, who);
    }
  }
}
