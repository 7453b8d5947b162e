/** Runs from a start state on which the protocol does not keep what is asked of it. They work
    for every configuration, order and stock that lets a purchase go through at all. */
module OrderRuns {
  import opened Common
  import opened Inventory
  import opened OrderModel
  import opened OrderInvariants
  import opened OrderSteps
  import opened OrderTheorems
  import opened OrderGuard

  // ---- reachable states

  /** A set of states that every step of the system stays in. */
  ghost predicate Closed(c: Config, reach: State -> bool) {
    forall s, a :: reach(s) ==> reach(Apply(c, s, a))
  }

  ghost function From(c: Config, s0: State): State -> bool { (s: State) => exists acts :: s == Run(c, s0, acts) }

  lemma FromIsClosed(c: Config, s0: State)
    ensures From(c, s0)(s0) && Closed(c, From(c, s0))
  {
    assert s0 == Run(c, s0, []);
    forall s, a | From(c, s0)(s)
      ensures From(c, s0)(Apply(c, s, a))
    {
      var acts :| s == Run(c, s0, acts);
      RunAppend(c, s0, acts, a);
    }
  }

  // ---- a purchase, step by step

  datatype Purchase = Purchase(order: OrderId, user: UserId, event: string, sku: Sku, qty: nat)

  function HomeKey(c: Config, p: Purchase): InvKey { Probe(p.sku, Home(c, p.user), 0, c.shards) }

  function PlaceOf(p: Purchase, pc: PlacePc): Place { OrderModel.Place(p.user, p.event, p.sku, p.qty, pc) }

  function Posted(c: Config, p: Purchase): Event {
    Event(p.order, p.user, p.event, p.sku, p.qty, Some(HomeKey(c, p)))
  }

  /** A fresh order for a known user and product, with stock in the user's home shard. */
  predicate CanBuy(c: Config, s: State, p: Purchase) {
    && p.order !in s.places && p.qty > 0 && p.user in c.users && p.sku in c.products
    && p.sku !in s.soldOut && At(s.stock, HomeKey(c, p)) > 0
  }

  lemma Begins(c: Config, reach: State -> bool, s: State, p: Purchase) returns (t: State)
    requires Closed(c, reach) && reach(s) && p.order !in s.places && p.qty > 0
    ensures reach(t) && t == s.(places := s.places[p.order := PlaceOf(p, CheckLatch)])
  {
    t := Apply(c, s, Begin(p.order, p.user, p.event, p.sku, p.qty));
    assert reach(Apply(c, s, Begin(p.order, p.user, p.event, p.sku, p.qty)));
  }

  /** The call of the purchase stands at `pc`. */
  predicate Stands(s: State, p: Purchase, pc: PlacePc) { p.order in s.places && s.places[p.order] == PlaceOf(p, pc) }

  lemma Checks(c: Config, reach: State -> bool, s: State, p: Purchase) returns (t: State)
    requires Closed(c, reach) && reach(s) && Stands(s, p, CheckLatch) && p.sku !in s.soldOut
    ensures reach(t) && t == s.(places := s.places[p.order := PlaceOf(p, Sweep(0))])
  {
    t := Apply(c, s, PlaceStep(p.order, Ok));
    assert reach(Apply(c, s, PlaceStep(p.order, Ok)));
  }

  lemma Wins(c: Config, reach: State -> bool, s: State, p: Purchase) returns (t: State)
    requires Closed(c, reach) && reach(s) && Stands(s, p, Sweep(0)) && At(s.stock, HomeKey(c, p)) > 0
    ensures reach(t) && t == s.(stock := Add(s.stock, HomeKey(c, p), -1),
                    places := s.places[p.order := PlaceOf(p, Mark(HomeKey(c, p)))],
                    hist := s.hist.(wins := s.hist.wins[p.order := HomeKey(c, p)]))
  {
    t := SweepStep(c, s, p.order, 0, Ok);
    assert reach(Apply(c, s, PlaceStep(p.order, Ok)));
  }

  lemma Marks(c: Config, reach: State -> bool, s: State, p: Purchase, key: InvKey) returns (t: State)
    requires Closed(c, reach) && reach(s) && Stands(s, p, Mark(key))
    ensures reach(t) && t == s.(cells := s.cells[p.order := Reserved(s.now + c.reservationTTL)],
                    places := s.places[p.order := PlaceOf(p, Publish(key, 0))],
                    hist := s.hist.(reserved := s.hist.reserved + multiset{p.order}))
  {
    t := MarkStep(c, s, p.order, key, Ok);
    assert reach(Apply(c, s, PlaceStep(p.order, Ok)));
  }

  /** Reservation: the unit is taken and RESERVED written. */
  lemma Reserves(c: Config, reach: State -> bool, s: State, p: Purchase) returns (t: State)
    requires Closed(c, reach) && reach(s) && CanBuy(c, s, p)
    ensures reach(t) && t == s.(stock := Add(s.stock, HomeKey(c, p), -1),
                    cells := s.cells[p.order := Reserved(s.now + c.reservationTTL)],
                    places := s.places[p.order := PlaceOf(p, Publish(HomeKey(c, p), 0))],
                    hist := s.hist.(wins := s.hist.wins[p.order := HomeKey(c, p)],
                                    reserved := s.hist.reserved + multiset{p.order}))
  {
    var s1 := Begins(c, reach, s, p);
    var s2 := Checks(c, reach, s1, p);
    var s3 := Wins(c, reach, s2, p);
    t := Marks(c, reach, s3, p, HomeKey(c, p));
    assert t.places == s.places[p.order := PlaceOf(p, Publish(HomeKey(c, p), 0))];
  }

  function Move(s: State, p: Purchase, pc: PlacePc): map<OrderId, Place> { s.places[p.order := PlaceOf(p, pc)] }

  lemma Publishes(c: Config, reach: State -> bool, s: State, p: Purchase) returns (t: State)
    requires Closed(c, reach) && reach(s) && Stands(s, p, Publish(HomeKey(c, p), 0))
    ensures reach(t) && t == s.(stream := s.stream[p.order := Posted(c, p)], places := Move(s, p, Placed))
  {
    t := PublishStep(s, p.order, HomeKey(c, p), 0, Ok);
    assert reach(Apply(c, s, PlaceStep(p.order, Ok)));
  }

  lemma FailsToPublish(c: Config, reach: State -> bool, s: State, p: Purchase, attempt: nat) returns (t: State)
    requires Closed(c, reach) && reach(s) && Stands(s, p, Publish(HomeKey(c, p), attempt))
    ensures reach(t) && t == s.(places := Move(s, p, AfterAttempt(HomeKey(c, p), attempt)))
  {
    t := PublishStep(s, p.order, HomeKey(c, p), attempt, Failed);
    assert reach(Apply(c, s, PlaceStep(p.order, Failed)));
  }

  /** The last attempt is stored, but its acknowledgement is lost. */
  lemma LosesAck(c: Config, reach: State -> bool, s: State, p: Purchase) returns (t: State)
    requires Closed(c, reach) && reach(s) && Stands(s, p, Publish(HomeKey(c, p), PUBLISH_ATTEMPTS - 1))
    ensures reach(t) && t == s.(stream := s.stream[p.order := Posted(c, p)],
                                places := Move(s, p, Refunding(HomeKey(c, p), Release)),
                                hist := s.hist.(unacked := s.hist.unacked + {p.order}))
  {
    t := PublishStep(s, p.order, HomeKey(c, p), PUBLISH_ATTEMPTS - 1, Lost);
    assert reach(Apply(c, s, PlaceStep(p.order, Lost)));
  }

  lemma Releases(c: Config, reach: State -> bool, s: State, p: Purchase) returns (t: State)
    requires Closed(c, reach) && reach(s) && Stands(s, p, Refunding(HomeKey(c, p), Release)) && Holds(s.cells, s.now, p.order)
    ensures reach(t) && t == s.(stock := Add(s.stock, HomeKey(c, p), 1),
                                cells := s.cells[p.order := Cell.Compensated],
                                places := Move(s, p, Refunding(HomeKey(c, p), Unlatch)),
                                hist := s.hist.(refunds := s.hist.refunds + multiset{p.order},
                                                refundedBy := s.hist.refundedBy[p.order := ByPlace]))
  {
    t := Apply(c, s, PlaceStep(p.order, Ok));
    assert reach(Apply(c, s, PlaceStep(p.order, Ok)));
  }

  // ---- delivery

  function Expires(c: Config, s: State): int { s.now + c.paymentWindow }

  function NewRow(c: Config, s: State, p: Purchase): Row {
    Row(p.user, p.event, p.sku, p.qty, Pending, Expires(c, s), s.now, 1)
  }

  predicate CanInsert(c: Config, s: State, p: Purchase) {
    && p.user in c.users && p.sku in c.products && p.order in s.stream && s.stream[p.order] == Posted(c, p)
    && s.rows == map[]
  }

  lemma Delivers(c: Config, reach: State -> bool, s: State, p: Purchase) returns (t: State)
    requires Closed(c, reach) && reach(s) && CanInsert(c, s, p)
    ensures reach(t) && t == s.(jobs := s.jobs + [Handle(Posted(c, p), Expires(c, s), Insert)])
  {
    t := Apply(c, s, Deliver(p.order));
    assert reach(Apply(c, s, Deliver(p.order)));
  }

  lemma Inserts(c: Config, reach: State -> bool, s: State, p: Purchase, i: nat) returns (t: State)
    requires Closed(c, reach) && reach(s) && CanInsert(c, s, p)
    requires i < |s.jobs| && s.jobs[i] == Handle(Posted(c, p), Expires(c, s), Insert)
    ensures reach(t) && t == s.(rows := map[p.order := NewRow(c, s, p)],
                                jobs := s.jobs[i := Handle(Posted(c, p), Expires(c, s), Flip)])
  {
    t := Apply(c, s, JobStep(i, Ok, []));
    InsertIs(c, s, i, Posted(c, p), Expires(c, s), Ok, t);
    assert t.rows == map[p.order := NewRow(c, s, p)];
    assert reach(Apply(c, s, JobStep(i, Ok, [])));
  }

  lemma Flips(c: Config, reach: State -> bool, s: State, p: Purchase, i: nat, expires: int) returns (t: State)
    requires Closed(c, reach) && reach(s) && i < |s.jobs| && s.jobs[i] == Handle(Posted(c, p), expires, Flip)
    ensures reach(t) && t == s.(cells := s.cells[p.order := Published],
                                jobs := s.jobs[i := Handle(Posted(c, p), expires, Arm(0))])
  {
    t := FlipStep(s, i, Posted(c, p), expires, Ok);
    assert reach(Apply(c, s, JobStep(i, Ok, [])));
  }

  lemma Arms(c: Config, reach: State -> bool, s: State, p: Purchase, i: nat, expires: int) returns (t: State)
    requires Closed(c, reach) && reach(s) && i < |s.jobs| && s.jobs[i] == Handle(Posted(c, p), expires, Arm(0))
    ensures reach(t) && t == s.(timers := s.timers + {Timer(p.order, WholeSeconds(expires))}, jobs := s.jobs[i := Finished])
  {
    t := Apply(c, s, JobStep(i, Ok, []));
    ArmIs(c, s, i, Posted(c, p), expires, 0, Ok, t);
    assert reach(Apply(c, s, JobStep(i, Ok, [])));
  }

  /** A delivery: the row is inserted, PUBLISHED written and the schedule armed. */
  lemma Handles(c: Config, reach: State -> bool, s: State, p: Purchase) returns (t: State)
    requires Closed(c, reach) && reach(s) && CanInsert(c, s, p)
    ensures reach(t) && t == s.(rows := map[p.order := NewRow(c, s, p)],
                                cells := s.cells[p.order := Published],
                                timers := s.timers + {Timer(p.order, WholeSeconds(Expires(c, s)))},
                                jobs := s.jobs + [Finished])
  {
    var i := |s.jobs|;
    var s1 := Delivers(c, reach, s, p);
    var s2 := Inserts(c, reach, s1, p, i);
    var s3 := Flips(c, reach, s2, p, i, Expires(c, s));
    t := Arms(c, reach, s3, p, i, Expires(c, s));
    assert t.jobs == s.jobs + [Finished];
  }

  /** A second row, of an order whose user has none for that event. */
  lemma InsertsBeside(c: Config, reach: State -> bool, s: State, p: Purchase, i: nat, expires: int) returns (t: State)
    requires Closed(c, reach) && reach(s) && p.user in c.users && p.sku in c.products && p.order !in s.rows
    requires forall o | o in s.rows && s.rows[o].user == p.user :: s.rows[o].event != p.event
    requires i < |s.jobs| && s.jobs[i] == Handle(Posted(c, p), expires, Insert)
    ensures reach(t) && p.order in t.rows && t.rows == s.rows[p.order := t.rows[p.order]]
    ensures t.rows[p.order] == Row(p.user, p.event, p.sku, p.qty, Pending, expires, s.now, 1)
  {
    t := Apply(c, s, JobStep(i, Ok, []));
    InsertIs(c, s, i, Posted(c, p), expires, Ok, t);
    assert reach(Apply(c, s, JobStep(i, Ok, [])));
  }

  lemma BuysTwice(c: Config, reach: State -> bool, s0: State, p: Purchase, q: Purchase) returns (t: State)
    requires Closed(c, reach) && reach(s0) && Start(s0) && CanBuy(c, s0, p) && CanBuy(c, s0, q)
    requires p.order != q.order && p.user == q.user && p.event != q.event
    requires At(Add(s0.stock, HomeKey(c, p), -1), HomeKey(c, q)) > 0
    ensures reach(t) && t.rows.Keys == {p.order, q.order}
    ensures forall o | o in t.rows :: t.rows[o].user == p.user && t.rows[o].status == Pending
  {
    var s1 := Reserves(c, reach, s0, p);
    var s2 := Publishes(c, reach, s1, p);
    var s3 := Reserves(c, reach, s2, q);
    var s4 := Publishes(c, reach, s3, q);
    var s5 := Delivers(c, reach, s4, p);
    var s6 := Delivers(c, reach, s5, q);
    var s7 := Inserts(c, reach, s6, p, 0);
    t := InsertsBeside(c, reach, s7, q, 1, Expires(c, s0));
  }

  /** The constraint is on user and event together: whenever one user can buy for two events, both
      orders can land in the table. */
  lemma SomeUserBuysTwice(c: Config, s0: State, p: Purchase, q: Purchase) returns (acts: seq<Action>, t: State)
    requires Start(s0) && CanBuy(c, s0, p) && CanBuy(c, s0, q)
    requires p.order != q.order && p.user == q.user && p.event != q.event
    requires At(Add(s0.stock, HomeKey(c, p), -1), HomeKey(c, q)) > 0
    ensures t == Run(c, s0, acts) && t.rows.Keys == {p.order, q.order}
    ensures forall o | o in t.rows :: t.rows[o].user == p.user && t.rows[o].status == Pending
  {
    FromIsClosed(c, s0);
    t := BuysTwice(c, From(c, s0), s0, p, q);
    acts :| t == Run(c, s0, acts);
  }

  // ---- timeouts

  lemma Waits(c: Config, reach: State -> bool, s: State, to: int) returns (t: State)
    requires Closed(c, reach) && reach(s)
    ensures reach(t) && t == s.(now := if s.now <= to then to else s.now)
  {
    t := Apply(c, s, Advance(to));
    assert reach(Apply(c, s, Advance(to)));
  }

  lemma FiresAndTakesGuard(c: Config, reach: State -> bool, s: State, timer: Timer) returns (t: State)
    requires Closed(c, reach) && reach(s) && timer in s.timers && timer.at <= s.now && !Guarded(s, timer.order)
    ensures reach(t) && t == s.(guards := s.guards[timer.order := s.now + GUARD_TTL],
                                jobs := s.jobs + [Timeout(timer.order, Get, [])])
  {
    var s1 := Apply(c, s, Fire(timer));
    assert s1 == Spawn(s, Timeout(timer.order, Guard, []));
    assert reach(Apply(c, s, Fire(timer)));
    t := TakesGuard(c, reach, s1, |s.jobs|, timer.order);
    assert t.jobs == s.jobs + [Timeout(timer.order, Get, [])];
  }

  lemma TakesGuard(c: Config, reach: State -> bool, s: State, i: nat, o: OrderId) returns (t: State)
    requires Closed(c, reach) && reach(s) && i < |s.jobs| && s.jobs[i] == Timeout(o, Guard, []) && !Guarded(s, o)
    ensures reach(t) && t == s.(guards := s.guards[o := s.now + GUARD_TTL], jobs := s.jobs[i := Timeout(o, Get, [])])
  {
    t := Apply(c, s, JobStep(i, Ok, []));
    GuardIs(c, s, i, o, [], Ok, t);
    assert reach(Apply(c, s, JobStep(i, Ok, [])));
  }

  lemma Gets(c: Config, reach: State -> bool, s: State, i: nat, o: OrderId) returns (t: State)
    requires Closed(c, reach) && reach(s) && i < |s.jobs| && s.jobs[i] == Timeout(o, Get, []) && o in s.rows
    ensures reach(t) && t == s.(jobs := s.jobs[i := Timeout(o, Cancel(s.rows[o].user, s.rows[o].sku), [])])
  {
    t := Apply(c, s, JobStep(i, Ok, []));
    GetIs(c, s, i, o, [], Ok, t);
    assert reach(Apply(c, s, JobStep(i, Ok, [])));
  }

  /** The UPDATE of job `i`, on a due order or not. */
  lemma Updates(c: Config, reach: State -> bool, s: State, i: nat, o: OrderId, user: UserId, sku: Sku) returns (t: State)
    requires Closed(c, reach) && reach(s) && i < |s.jobs| && s.jobs[i] == Timeout(o, Cancel(user, sku), [])
    ensures reach(t) && t == CancelStep(c, s, i, o, user, sku, [], Ok)
  {
    t := CancelStep(c, s, i, o, user, sku, [], Ok);
    assert reach(Apply(c, s, JobStep(i, Ok, [])));
  }

  /** The purchase is in the table and on schedule. */
  ghost predicate Handled(c: Config, s0: State, s: State, p: Purchase) {
    && s.rows == map[p.order := NewRow(c, s0, p)]
    && s.timers == {Timer(p.order, WholeSeconds(Expires(c, s0)))}
    && s.guards == map[] && s.jobs == [Finished] && s.now == s0.now
    && s.stock == Add(s0.stock, HomeKey(c, p), -1)
    && s.hist.refunds == multiset{}
    && Find(s.cells, p.order) == Some(Published)
  }

  lemma Buys(c: Config, reach: State -> bool, s0: State, p: Purchase) returns (t: State)
    requires Closed(c, reach) && reach(s0) && Start(s0) && CanBuy(c, s0, p)
    ensures reach(t) && Handled(c, s0, t, p)
  {
    var s1 := Reserves(c, reach, s0, p);
    var s2 := Publishes(c, reach, s1, p);
    t := Handles(c, reach, s2, p);
  }

  // ---- the runs

  /** The oversell-proof gate oversells: in every configuration, from every start state in which
      an order can be bought at all, some run ends with more live orders and stock than were
      seeded. The third publish is stored with its acknowledgement lost, Place puts the unit
      back, and the delivered event becomes an order. */
  lemma SomeRunOversells(c: Config, s0: State, p: Purchase) returns (acts: seq<Action>, t: State)
    requires Start(s0) && CanBuy(c, s0, p)
    ensures t == Run(c, s0, acts)
    ensures |Live(t, p.sku)| + Total(t.stock, p.sku, c.shards) == Total(s0.stock, p.sku, c.shards) + 1
  {
    FromIsClosed(c, s0);
    t := Oversells(c, From(c, s0), s0, p);
    acts :| t == Run(c, s0, acts);
    var key := HomeKey(c, p);
    TotalAdd(s0.stock, p.sku, c.shards, key, -1);
    TotalAdd(Add(s0.stock, key, -1), p.sku, c.shards, key, 1);
    assert Live(t, p.sku) == {p.order};
  }

  lemma Oversells(c: Config, reach: State -> bool, s0: State, p: Purchase) returns (t: State)
    requires Closed(c, reach) && reach(s0) && Start(s0) && CanBuy(c, s0, p)
    ensures reach(t) && t.stock == Add(Add(s0.stock, HomeKey(c, p), -1), HomeKey(c, p), 1)
    ensures t.rows == map[p.order := NewRow(c, s0, p)]
  {
    var s1 := Reserves(c, reach, s0, p);
    var s2 := FailsToPublish(c, reach, s1, p, 0);
    var s3 := FailsToPublish(c, reach, s2, p, 1);
    var s4 := LosesAck(c, reach, s3, p);
    var s5 := Releases(c, reach, s4, p);
    var s6 := Delivers(c, reach, s5, p);
    t := Inserts(c, reach, s6, p, 0);
  }

  /** Cancelled, and not restocked: whenever an order can be bought, some undisturbed run handles
      it, times it out and cancels it, and leaves its unit out of the shards for ever. */
  lemma SomeTimeoutRestocksNothing(c: Config, s0: State, p: Purchase) returns (acts: seq<Action>, t: State)
    requires Start(s0) && CanBuy(c, s0, p)
    ensures t == Run(c, s0, acts)
    ensures p.order in t.rows && t.rows[p.order].status == Cancelled && t.jobs == [Finished, Finished]
    ensures Total(t.stock, p.sku, c.shards) == Total(s0.stock, p.sku, c.shards) - 1
    ensures forall more :: Run(c, t, more).hist.refunds[p.order] == 0
  {
    FromIsClosed(c, s0);
    t := TimesOut(c, From(c, s0), s0, p);
    acts :| t == Run(c, s0, acts);
    TotalAdd(s0.stock, p.sku, c.shards, HomeKey(c, p), -1);
    forall more
      ensures Run(c, t, more).hist.refunds[p.order] == 0
    {
      PublishedIsNeverRefunded(c, s0, acts, more, p.order, t);
    }
  }

  lemma CancelledJob(c: Config, s: State, i: nat, o: OrderId, user: UserId, sku: Sku, t: State)
    requires i < |s.jobs| && Due(s, o) && t == CancelStep(c, s, i, o, user, sku, [], Ok)
    ensures t == s.(rows := s.rows[o := s.rows[o].(status := Cancelled, version := s.rows[o].version + 1)],
                    jobs := s.jobs[i := Timeout(o, Restock(Shard(sku, Home(c, user)), Release), [])],
                    hist := t.hist)
    ensures t.hist == s.hist.(cancels := s.hist.cancels[o := i], cancelCount := s.hist.cancelCount + multiset{o},
                              cancelledAt := s.hist.cancelledAt[o := s.now])
  {
  }

  lemma ReleasesNothing(c: Config, reach: State -> bool, s: State, i: nat, o: OrderId, key: InvKey) returns (t: State)
    requires Closed(c, reach) && reach(s) && i < |s.jobs| && s.jobs[i] == Timeout(o, Restock(key, Release), [])
    requires !Holds(s.cells, s.now, o)
    ensures reach(t) && t == s.(jobs := s.jobs[i := Timeout(o, Announce, [])])
  {
    t := Apply(c, s, JobStep(i, Ok, []));
    assert reach(Apply(c, s, JobStep(i, Ok, [])));
  }

  lemma Announces(c: Config, reach: State -> bool, s: State, i: nat, o: OrderId) returns (t: State)
    requires Closed(c, reach) && reach(s) && i < |s.jobs| && s.jobs[i] == Timeout(o, Announce, [])
    ensures reach(t) && t == s.(jobs := s.jobs[i := Finished], hist := t.hist) && t.hist.refunds == s.hist.refunds
  {
    t := Apply(c, s, JobStep(i, Ok, []));
    assert reach(Apply(c, s, JobStep(i, Ok, [])));
  }

  lemma TimesOut(c: Config, reach: State -> bool, s0: State, p: Purchase) returns (t: State)
    requires Closed(c, reach) && reach(s0) && Start(s0) && CanBuy(c, s0, p)
    ensures reach(t) && p.order in t.rows && t.rows[p.order].status == Cancelled && t.jobs == [Finished, Finished]
    ensures t.stock == Add(s0.stock, HomeKey(c, p), -1) && t.hist.refunds == multiset{}
    ensures p.order in t.cells && t.cells[p.order] == Published
  {
    var s1 := Buys(c, reach, s0, p);
    var s2 := Waits(c, reach, s1, Expires(c, s0));
    var s3 := FiresAndTakesGuard(c, reach, s2, Timer(p.order, WholeSeconds(Expires(c, s0))));
    var s4 := Gets(c, reach, s3, 1, p.order);
    var s5 := Updates(c, reach, s4, 1, p.order, p.user, p.sku);
    CancelledJob(c, s4, 1, p.order, p.user, p.sku, s5);
    var s6 := ReleasesNothing(c, reach, s5, 1, p.order, Shard(p.sku, Home(c, p.user)));
    t := Announces(c, reach, s6, 1, p.order);
  }

  /** A schedule whose deadline is not a whole second may fire early and strand its order: some
      run comes to the UPDATE of its call before the order is due, and from there on nobody
      cancels the order before the guard's day is over, whatever happens. */
  lemma SomeScheduleStrandsItsOrder(c: Config, s0: State, p: Purchase) returns (acts: seq<Action>, t: State)
    requires Start(s0) && CanBuy(c, s0, p) && c.paymentWindow > 0 && Expires(c, s0) % SECOND != 0
    ensures t == Run(c, s0, acts) && StandsAtUpdate(t, p)
    ensures forall oc, more :: var u := Run(c, Apply(c, t, JobStep(1, oc, [])), more);
      u.now < t.now + GUARD_TTL ==> p.order in u.rows && u.rows[p.order].status != Cancelled
  {
    FromIsClosed(c, s0);
    t := FiresEarly(c, From(c, s0), s0, p);
    acts :| t == Run(c, s0, acts);
    StartInv(c, s0);
    RunKeeps(c, s0, acts);
    forall oc, more | Run(c, Apply(c, t, JobStep(1, oc, [])), more).now < t.now + GUARD_TTL
      ensures var u := Run(c, Apply(c, t, JobStep(1, oc, [])), more);
        p.order in u.rows && u.rows[p.order].status != Cancelled
    {
      var s1 := Apply(c, t, JobStep(1, oc, []));
      EarlyFiringStrandsOrder(c, t, 1, p.order, p.user, p.sku, [], oc, s1, more, Run(c, s1, more));
    }
  }

  /** What EarlyFiringStrandsOrder asks for. */
  ghost predicate StandsAtUpdate(t: State, p: Purchase) {
    && Exclusive(t, p.order, 1) && t.guards[p.order] == t.now + GUARD_TTL
    && t.jobs == [Finished, Timeout(p.order, Cancel(p.user, p.sku), [])]
    && p.order in t.rows && t.rows[p.order].status == Pending && t.now < t.rows[p.order].expires
  }

  lemma FiresEarly(c: Config, reach: State -> bool, s0: State, p: Purchase) returns (t: State)
    requires Closed(c, reach) && reach(s0) && Start(s0) && CanBuy(c, s0, p)
    requires c.paymentWindow > 0 && Expires(c, s0) % SECOND != 0
    ensures reach(t) && StandsAtUpdate(t, p)
  {
    var timer := Timer(p.order, WholeSeconds(Expires(c, s0)));
    var s1 := Buys(c, reach, s0, p);
    var s2 := Waits(c, reach, s1, timer.at);
    var s3 := FiresAndTakesGuard(c, reach, s2, timer);
    t := Gets(c, reach, s3, 1, p.order);
    assert t.jobs == [Finished, Timeout(p.order, Cancel(p.user, p.sku), [])];
  }

  /** A call that stalls past its guard's day cancels the row while another call holds the new
      guard: the premises of StaleCallActs are reached. */
  lemma SomeStaleCallCancels(c: Config, s0: State, p: Purchase) returns (acts: seq<Action>, t: State)
    requires Start(s0) && CanBuy(c, s0, p)
    ensures t == Run(c, s0, acts)
    ensures p.order in t.rows && t.rows[p.order].status == Cancelled && Find(t.hist.cancels, p.order) == Some(1)
    ensures Guarded(t, p.order) && |t.jobs| == 3 && t.jobs[2] == Timeout(p.order, Get, [])
  {
    FromIsClosed(c, s0);
    t := StallsPastGuard(c, From(c, s0), s0, p);
    acts :| t == Run(c, s0, acts);
  }

  lemma StallsPastGuard(c: Config, reach: State -> bool, s0: State, p: Purchase) returns (t: State)
    requires Closed(c, reach) && reach(s0) && Start(s0) && CanBuy(c, s0, p)
    ensures reach(t) && p.order in t.rows && t.rows[p.order].status == Cancelled && Find(t.hist.cancels, p.order) == Some(1)
    ensures Guarded(t, p.order) && |t.jobs| == 3 && t.jobs[2] == Timeout(p.order, Get, [])
  {
    var timer := Timer(p.order, WholeSeconds(Expires(c, s0)));
    var s1 := Buys(c, reach, s0, p);
    var s2 := Waits(c, reach, s1, Expires(c, s0));
    var s3 := FiresAndTakesGuard(c, reach, s2, timer);
    var s4 := Gets(c, reach, s3, 1, p.order);
    var s5 := Waits(c, reach, s4, s3.now + GUARD_TTL);
    var s6 := FiresAndTakesGuard(c, reach, s5, timer);
    t := Updates(c, reach, s6, 1, p.order, p.user, p.sku);
    CancelledJob(c, s6, 1, p.order, p.user, p.sku, t);
  }

  // ---- the latch over stock

  function ProbeKey(c: Config, p: Purchase, d: nat): InvKey { Probe(p.sku, Home(c, p.user), d, c.shards) }

  /** The shards from offset `d` on, in the order in which the purchase probes them, are empty. */
  predicate EmptyFrom(c: Config, stock: Stock, p: Purchase, d: nat) {
    forall e: nat | d <= e < c.shards :: At(stock, ProbeKey(c, p, e)) == 0
  }

  lemma Misses(c: Config, reach: State -> bool, s: State, p: Purchase, d: nat) returns (t: State)
    requires Closed(c, reach) && reach(s) && Stands(s, p, Sweep(d)) && At(s.stock, ProbeKey(c, p, d)) == 0
    ensures reach(t) && t == s.(stock := t.stock, places := Move(s, p, AfterProbe(c, d)))
    ensures forall k :: At(t.stock, k) == At(s.stock, k)
  {
    t := SweepStep(c, s, p.order, d, Ok);
    assert reach(Apply(c, s, PlaceStep(p.order, Ok)));
  }

  /** A sweep over empty shards, every probe answered. */
  lemma {:induction false} MissesAll(c: Config, reach: State -> bool, s: State, p: Purchase, d: nat) returns (t: State)
    requires Closed(c, reach) && reach(s) && d < c.shards && Stands(s, p, Sweep(d)) && EmptyFrom(c, s.stock, p, d)
    ensures reach(t) && t == s.(stock := t.stock, places := Move(s, p, Latch))
    ensures forall k :: At(t.stock, k) == At(s.stock, k)
    decreases c.shards - d
  {
    t := Misses(c, reach, s, p, d);
    if d + 1 < c.shards {
      var u := MissesAll(c, reach, t, p, d + 1);
      assert u.places == Move(s, p, Latch);
      t := u;
    }
  }

  lemma FailsProbe(c: Config, reach: State -> bool, s: State, p: Purchase) returns (t: State)
    requires Closed(c, reach) && reach(s) && Stands(s, p, Sweep(0))
    ensures reach(t) && t == s.(places := Move(s, p, AfterProbe(c, 0)))
  {
    t := SweepStep(c, s, p.order, 0, Failed);
    assert reach(Apply(c, s, PlaceStep(p.order, Failed)));
  }

  lemma Latches(c: Config, reach: State -> bool, s: State, p: Purchase) returns (t: State)
    requires Closed(c, reach) && reach(s) && Stands(s, p, Latch)
    ensures reach(t) && t == s.(soldOut := s.soldOut + {p.sku}, places := Move(s, p, SoldOut))
  {
    t := Apply(c, s, PlaceStep(p.order, Ok));
    assert reach(Apply(c, s, PlaceStep(p.order, Ok)));
  }

  /** One error latches a SKU with stock, whatever the number of shards: the probe of the only
      stocked shard fails, and the sweep skips it. */
  lemma SomeErrorLatchesStock(c: Config, s0: State, p: Purchase) returns (acts: seq<Action>, t: State)
    requires Start(s0) && CanBuy(c, s0, p) && EmptyFrom(c, s0.stock, p, 1)
    ensures t == Run(c, s0, acts) && p.sku in t.soldOut
    ensures Total(t.stock, p.sku, c.shards) == Total(s0.stock, p.sku, c.shards) > 0
  {
    FromIsClosed(c, s0);
    t := LatchesOnError(c, From(c, s0), s0, p);
    acts :| t == Run(c, s0, acts);
    HasStock(c, s0.stock, p);
    TotalSame(s0.stock, t.stock, p.sku, c.shards);
  }

  lemma HasStock(c: Config, stock: Stock, p: Purchase)
    requires NonNegative(stock) && At(stock, HomeKey(c, p)) > 0
    ensures Total(stock, p.sku, c.shards) > 0
  {
    TotalNonNegative(stock, p.sku, c.shards);
    assert HomeKey(c, p).Shard? && HomeKey(c, p).sku == p.sku && HomeKey(c, p).index < c.shards;
    assert At(stock, Shard(p.sku, HomeKey(c, p).index)) <= Total(stock, p.sku, c.shards);
  }

  lemma LatchesOnError(c: Config, reach: State -> bool, s0: State, p: Purchase) returns (t: State)
    requires Closed(c, reach) && reach(s0) && CanBuy(c, s0, p) && EmptyFrom(c, s0.stock, p, 1)
    ensures reach(t) && p.sku in t.soldOut && forall k :: At(t.stock, k) == At(s0.stock, k)
  {
    var s1 := Begins(c, reach, s0, p);
    var s2 := Checks(c, reach, s1, p);
    var s3 := FailsProbe(c, reach, s2, p);
    if c.shards > 1 {
      s3 := MissesAll(c, reach, s3, p, 1);
    }
    t := Latches(c, reach, s3, p);
  }

  lemma Unlatches(c: Config, reach: State -> bool, s: State, p: Purchase) returns (t: State)
    requires Closed(c, reach) && reach(s) && Stands(s, p, Refunding(HomeKey(c, p), Unlatch))
    ensures reach(t) && t == s.(soldOut := if p.sku == "" then s.soldOut else s.soldOut - {p.sku}, places := Move(s, p, Errored))
  {
    t := Apply(c, s, PlaceStep(p.order, Ok));
    assert reach(Apply(c, s, PlaceStep(p.order, Ok)));
  }

  /** The purchase's home shard holds the last unit of its SKU. */
  predicate LastUnit(c: Config, stock: Stock, p: Purchase) {
    forall i: nat | i < c.shards :: At(stock, Shard(p.sku, i)) == if Shard(p.sku, i) == HomeKey(c, p) then 1 else 0
  }

  /** So does a refund behind a probe, without any Redis error: one call takes the last unit,
      another finds nothing, the first fails to publish, puts the unit back and clears the latch,
      and only then does the other set it. */
  lemma SomeRefundIsLatchedOver(c: Config, s0: State, p: Purchase, q: Purchase) returns (acts: seq<Action>, t: State)
    requires Start(s0) && CanBuy(c, s0, p) && LastUnit(c, s0.stock, p)
    requires q.order != p.order && q.order !in s0.places && q.qty > 0 && q.sku == p.sku
    ensures t == Run(c, s0, acts) && p.sku in t.soldOut
    ensures Total(t.stock, p.sku, c.shards) == Total(s0.stock, p.sku, c.shards) > 0
    ensures Stands(t, p, Errored) && Stands(t, q, SoldOut)
  {
    FromIsClosed(c, s0);
    t := RefundsUnderSweep(c, From(c, s0), s0, p, q);
    acts :| t == Run(c, s0, acts);
    HasStock(c, s0.stock, p);
    TotalSame(s0.stock, t.stock, p.sku, c.shards);
  }

  lemma SweepsInVain(c: Config, reach: State -> bool, s: State, q: Purchase) returns (t: State)
    requires Closed(c, reach) && reach(s) && q.order !in s.places && q.qty > 0
    requires q.sku !in s.soldOut && EmptyFrom(c, s.stock, q, 0)
    ensures reach(t) && t == s.(stock := t.stock, places := Move(s, q, Latch))
    ensures forall k :: At(t.stock, k) == At(s.stock, k)
  {
    var s1 := Begins(c, reach, s, q);
    var s2 := Checks(c, reach, s1, q);
    t := MissesAll(c, reach, s2, q, 0);
    assert t.places == Move(s, q, Latch);
  }

  lemma TakenIsEmpty(c: Config, stock: Stock, p: Purchase, q: Purchase)
    requires LastUnit(c, stock, p) && q.sku == p.sku
    ensures EmptyFrom(c, Add(stock, HomeKey(c, p), -1), q, 0)
  {
    forall e: nat | e < c.shards
      ensures At(Add(stock, HomeKey(c, p), -1), ProbeKey(c, q, e)) == 0
    {
      assert ProbeKey(c, q, e) == Shard(p.sku, ProbeKey(c, q, e).index) && ProbeKey(c, q, e).index < c.shards;
    }
  }

  /** A unit taken and put back. */
  lemma ReturnsTaken(stock: Stock, mid: Stock, key: InvKey)
    requires forall k :: At(mid, k) == At(Add(stock, key, -1), k)
    ensures forall k :: At(Add(mid, key, 1), k) == At(stock, k)
  {
    forall k
      ensures At(Add(mid, key, 1), k) == At(stock, k)
    {
      assert At(mid, k) == At(Add(stock, key, -1), k);
    }
  }

  lemma FailsThrice(c: Config, reach: State -> bool, s: State, p: Purchase) returns (t: State)
    requires Closed(c, reach) && reach(s) && Stands(s, p, Publish(HomeKey(c, p), 0))
    ensures reach(t) && t == s.(places := Move(s, p, Refunding(HomeKey(c, p), Release)))
  {
    var s1 := FailsToPublish(c, reach, s, p, 0);
    var s2 := FailsToPublish(c, reach, s1, p, 1);
    t := FailsToPublish(c, reach, s2, p, 2);
    assert t.places == Move(s, p, Refunding(HomeKey(c, p), Release));
  }

  lemma RefundsUnderSweep(c: Config, reach: State -> bool, s0: State, p: Purchase, q: Purchase) returns (t: State)
    requires Closed(c, reach) && reach(s0) && CanBuy(c, s0, p) && LastUnit(c, s0.stock, p)
    requires q.order != p.order && q.order !in s0.places && q.qty > 0 && q.sku == p.sku
    ensures reach(t) && p.sku in t.soldOut && forall k :: At(t.stock, k) == At(s0.stock, k)
    ensures Stands(t, p, Errored) && Stands(t, q, SoldOut)
  {
    var s1 := Reserves(c, reach, s0, p);
    TakenIsEmpty(c, s0.stock, p, q);
    var s2 := SweepsInVain(c, reach, s1, q);
    ReturnsTaken(s0.stock, s2.stock, HomeKey(c, p));
    var s3 := FailsThrice(c, reach, s2, p);
    var s4 := Releases(c, reach, s3, p);
    var s5 := Unlatches(c, reach, s4, p);
    t := Latches(c, reach, s5, q);
    assert t.stock == Add(s2.stock, HomeKey(c, p), 1);
  }
}
