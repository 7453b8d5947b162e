/** Invariants of the purchase protocol, kept by every step. */
module OrderInvariants {
  import opened Common
  import opened Inventory
  import opened OrderModel

  /** The sweep has not been told of any unit. */
  predicate Unwon(pc: PlacePc) { pc.CheckLatch? || pc.Sweep? || pc.Latch? || pc.SoldOut? }

  /** RESERVED has not been written yet. */
  predicate Early(pc: PlacePc) { Unwon(pc) || pc.Mark? }

  /** `Place` has gone through its own refund. */
  predicate PlaceRefunded(pc: PlacePc) { pc.Errored? || (pc.Refunding? && pc.cpc.Unlatch?) }

  function Find<K, V>(m: map<K, V>, k: K): Option<V> {
    if k in m then Some(m[k]) else None
  }

  /** Everything the system records about one order. */
  datatype Record = Record(
    place: Option<Place>, cell: Option<Cell>, event: Option<Event>, row: Option<Row>,
    win: Option<InvKey>, reserved: nat, refunds: nat, refundedBy: Option<Party>,
    cancel: Option<nat>, cancelCount: nat, cancelledAt: Option<int>, announced: nat,
    unacked: bool, dead: bool)

  function Look(s: State, o: OrderId): Record {
    var h := s.hist;
    Record(Find(s.places, o), Find(s.cells, o), Find(s.stream, o), Find(s.rows, o),
           Find(h.wins, o), h.reserved[o], h.refunds[o], Find(h.refundedBy, o),
           Find(h.cancels, o), h.cancelCount[o], Find(h.cancelledAt, o), h.announced[o],
           o in h.unacked, o in h.deadLettered)
  }

  predicate IsCancelled(r: Record) { r.row.Some? && r.row.value.status == Cancelled }

  predicate PlaceInv(c: Config, r: Record)
    requires r.place.Some?
  {
    var p := r.place.value;
    && (Unwon(p.pc) <==> r.win.None?)
    && (p.pc.Sweep? ==> p.pc.offset < c.shards)
    && (r.win.Some? ==> r.win.value.Shard? && r.win.value.sku == p.sku && r.win.value.index < c.shards)
    && (p.pc.Mark? || p.pc.Publish? || p.pc.Refunding? ==> r.win == Some(p.pc.key))
    && (Early(p.pc) ==> r.cell.None? && r.event.None? && r.reserved == 0)
    && (r.event.Some? ==> p.pc.Placed? || r.unacked)
    && (p.pc.Placed? ==> r.event.Some?)
  }

  /** Every trace of an order comes from its `Place` call. */
  predicate TraceInv(o: OrderId, r: Record) {
    && (r.place.None? ==> r.win.None? && r.cell.None? && r.event.None? && r.reserved == 0)
    && (r.event.Some? ==>
          && r.win.Some?
          && var p := r.place.value;
             r.event.value == Event(o, p.user, p.event, p.sku, p.qty, r.win))
    && (r.row.Some? ==>
          && r.event.Some?
          && var ev, row := r.event.value, r.row.value;
             row.user == ev.user && row.event == ev.event && row.sku == ev.sku && row.qty == ev.qty)
  }

  predicate RefundInv(r: Record) {
    && r.reserved <= 1 && r.refunds <= r.reserved
    && (r.cell.Some? && r.cell.value.Reserved? ==> r.reserved == 1 && r.refunds == 0)
    && (r.refunds > 0 ==>
          && r.cell.Some? && r.place.Some? && r.refundedBy.Some?
          && match r.refundedBy.value
             case ByPlace => PlaceRefunded(r.place.value.pc)
             case ByTimeout => IsCancelled(r)
             case ByDlq => r.event.Some? && r.dead)
  }

  predicate CancelInv(r: Record, now: int) {
    && (r.cancel.Some? <==> IsCancelled(r))
    && r.cancelCount == (if r.cancel.Some? then 1 else 0)
    && (r.cancel.Some? ==> r.cancelledAt.Some? && r.row.value.expires <= r.cancelledAt.value <= now)
    && (r.row.Some? ==> r.row.value.version == 1 + r.cancelCount)
    && r.announced <= r.cancelCount
  }

  predicate RecordInv(c: Config, o: OrderId, r: Record, now: int) {
    TraceInv(o, r) && (r.place.Some? ==> PlaceInv(c, r)) && RefundInv(r) && CancelInv(r, now)
  }

  ghost predicate OrderInv(c: Config, s: State, o: OrderId) {
    RecordInv(c, o, Look(s, o), s.now)
  }

  /** The order a job works on. */
  function Subject(job: Job): Option<OrderId> {
    match job
    case Handle(ev, _, _) => Some(ev.order)
    case Dlq(ev, _) => Some(ev.order)
    case Timeout(o, _, _) => Some(o)
    case _ => None
  }

  /** A job past the UPDATE of ProcessTimeout is the one that cancelled the row. */
  predicate JobInv(c: Config, i: nat, job: Job, r: Record) {
    match job
    case Handle(ev, _, pc) =>
      && r.event == Some(ev)
      && (!pc.Insert? ==> r.row.Some?)
      && (pc.Arm? ==> r.cell == Some(Published))
    case Dlq(ev, _) => r.event == Some(ev) && r.dead
    case Timeout(o, pc, _) =>
      && (pc.Cancel? ==> r.row.Some? && pc.user == r.row.value.user && pc.sku == r.row.value.sku)
      && (pc.Restock? || pc.Announce? ==> r.row.Some? && r.cancel == Some(i) && r.announced == 0)
      && (pc.Restock? ==> pc.key == Shard(r.row.value.sku, Home(c, r.row.value.user)))
    case _ => true
  }

  ghost predicate JobsInv(c: Config, s: State) {
    forall i | 0 <= i < |s.jobs| ::
      Subject(s.jobs[i]).Some? ==> JobInv(c, i, s.jobs[i], Look(s, Subject(s.jobs[i]).value))
  }

  ghost predicate OneOrderPerUserAndEvent(s: State) {
    forall o, o' :: o in s.rows && o' in s.rows && o != o' ==>
      s.rows[o].user != s.rows[o'].user || s.rows[o].event != s.rows[o'].event
  }

  ghost predicate Inv(c: Config, s: State) {
    && NonNegative(s.stock)
    && (forall o :: OrderInv(c, s, o))
    && JobsInv(c, s)
    && OneOrderPerUserAndEvent(s)
  }

  // ---- how one step may change a record

  /** A row keeps its identity, and leaves PENDING_PAYMENT at most once. */
  predicate RowEvolves(now: int, row: Row, row': Row) {
    || row' == row
    || (row.status == Pending && row.expires <= now && row' == row.(status := Cancelled, version := row.version + 1))
    || (row.status == Pending && now < row.expires && row' == row.(status := Paid))
  }

  predicate HoldsCell(r: Record, now: int) {
    r.cell.Some? && r.cell.value.Reserved? && now < r.cell.value.until
  }

  predicate AtMark(r: Record) { r.place.Some? && r.place.value.pc.Mark? }

  predicate Evolves(now: int, r: Record, r': Record) {
    && (r.place.Some? ==>
          && r'.place.Some?
          && r'.place.value == r.place.value.(pc := r'.place.value.pc)
          && (Early(r'.place.value.pc) ==> Early(r.place.value.pc)))
    && (r.event.Some? ==> r'.event == r.event)
    && (r.win.Some? ==> r'.win == r.win)
    && (r'.cell.Some? && r'.cell.value.Reserved? ==> r'.cell == r.cell || AtMark(r))
    && (r.cell == Some(Published) ==> r'.cell == r.cell)
    && ((r'.refunds == r.refunds && r'.refundedBy == r.refundedBy)
        || (r'.refunds == r.refunds + 1 && HoldsCell(r, now) && r'.cell == Some(Cell.Compensated) &&
            (r'.refundedBy == Some(ByTimeout) ==> IsCancelled(r))))
    && (r.row.Some? ==> r'.row.Some? && RowEvolves(now, r.row.value, r'.row.value))
    && (r.row.None? && r'.row.Some? ==> r'.row.value.status == Pending)
    && r.announced <= r'.announced
  }

  // ---- units

  /** Orders whose decrement was reported and whose unit has not been put back. */
  ghost function Held(s: State, sku: Sku): set<OrderId> {
    set o | o in s.hist.wins && s.hist.wins[o].sku == sku && s.hist.refunds[o] == 0
  }

  /** Units in the shards, held by orders, and lost with a reply. */
  ghost function Ledger(c: Config, s: State, sku: Sku): int {
    Total(s.stock, sku, c.shards) + |Held(s, sku)| + s.hist.lost[sku]
  }

  ghost predicate SameUnits(s: State, s': State) {
    && s'.stock == s.stock && s'.hist.wins == s.hist.wins
    && s'.hist.refunds == s.hist.refunds && s'.hist.lost == s.hist.lost
  }

  /** Units move but are never made, and only a refund raises a counter. */
  ghost predicate Conserves(c: Config, s: State, s': State) {
    && (forall sku :: Ledger(c, s', sku) == Ledger(c, s, sku))
    && s.hist.refunds <= s'.hist.refunds
    && (s'.hist.refunds == s.hist.refunds ==> forall k :: At(s'.stock, k) <= At(s.stock, k))
  }

  lemma SameUnitsConserve(c: Config, s: State, s': State)
    requires SameUnits(s, s')
    ensures Conserves(c, s, s')
  {
    forall sku
      ensures Ledger(c, s', sku) == Ledger(c, s, sku)
    {
      assert Held(s', sku) == Held(s, sku);
    }
  }

  /** One step of the system, seen through its records and its units. */
  ghost predicate Keeps(c: Config, s: State, s': State) {
    && Inv(c, s')
    && Conserves(c, s, s')
    && s.now <= s'.now
    && forall x :: Evolves(s.now, Look(s, x), Look(s', x))
  }

  lemma StartInv(c: Config, s: State)
    requires Start(s)
    ensures Inv(c, s)
  {
  }

  /** A step that leaves alone every record but one. */
  lemma OnlyRecord(c: Config, s: State, s': State, o: OrderId)
    requires forall x :: OrderInv(c, s, x)
    requires s.now == s'.now
    requires forall x :: x != o ==> Look(s', x) == Look(s, x)
    requires OrderInv(c, s', o)
    ensures forall x :: OrderInv(c, s', x)
  {
    forall x
      ensures OrderInv(c, s', x)
    {
      assert OrderInv(c, s, x);
    }
  }

  lemma SameRecords(c: Config, s: State, s': State)
    requires forall x :: OrderInv(c, s, x)
    requires s.now <= s'.now
    requires forall x :: Look(s', x) == Look(s, x)
    ensures forall x :: OrderInv(c, s', x)
  {
    forall x
      ensures OrderInv(c, s', x)
    {
      assert OrderInv(c, s, x);
    }
  }

  /** What other jobs rely on when job `i` works on an order: events, row identities, the
      cancelling job and a published cell never change, and only the cancelling job announces. */
  predicate Respects(i: int, r: Record, r': Record) {
    && (r.event.Some? ==> r'.event == r.event)
    && (r.row.Some? ==> r'.row.Some? && r'.row.value.user == r.row.value.user && r'.row.value.sku == r.row.value.sku)
    && (r.cancel.Some? ==> r'.cancel == r.cancel)
    && (r.dead ==> r'.dead)
    && (r.cell == Some(Published) ==> r'.cell == r.cell)
    && (r'.announced == r.announced || r.cancel == Some(i))
  }

  lemma OtherJobs(c: Config, s: State, s': State, o: OrderId, i: int)
    requires JobsInv(c, s)
    requires forall x :: x != o ==> Look(s', x) == Look(s, x)
    requires Respects(i, Look(s, o), Look(s', o))
    requires |s.jobs| == |s'.jobs|
    requires forall j | 0 <= j < |s.jobs| && j != i :: s'.jobs[j] == s.jobs[j]
    requires 0 <= i < |s'.jobs| && Subject(s'.jobs[i]).Some? ==>
      JobInv(c, i, s'.jobs[i], Look(s', Subject(s'.jobs[i]).value))
    ensures JobsInv(c, s')
  {
    forall j | 0 <= j < |s'.jobs| && Subject(s'.jobs[j]).Some?
      ensures JobInv(c, j, s'.jobs[j], Look(s', Subject(s'.jobs[j]).value))
    {
      if j != i {
        var x := Subject(s.jobs[j]).value;
        assert JobInv(c, j, s.jobs[j], Look(s, x));
        assert x != o ==> Look(s', x) == Look(s, x);
      }
    }
  }

  // ---- steps of Place

  /** What a step of `Place` leaves alone. */
  ghost predicate PlaceFrame(s: State, s': State, o: OrderId) {
    && s'.now == s.now && s'.rows == s.rows && s'.jobs == s.jobs && s'.guards == s.guards
    && (forall x :: x != o ==> Look(s', x) == Look(s, x))
    && Look(s', o).dead == Look(s, o).dead
  }

  /** The order's publish is recorded as unacknowledged only when its reply is lost. */
  ghost predicate AckFrame(s: State, s': State, o: OrderId, oc: Outcome) {
    (oc.Lost? && o in s.places && s.places[o].pc.Publish?) || Look(s', o).unacked == Look(s, o).unacked
  }

  lemma PlaceKeeps(c: Config, s: State, s': State, o: OrderId)
    requires Inv(c, s) && o in s.places && NonNegative(s'.stock) && PlaceFrame(s, s', o)
    requires OrderInv(c, s', o) && Respects(-1, Look(s, o), Look(s', o)) && Evolves(s.now, Look(s, o), Look(s', o))
    requires SameUnits(s, s') || Conserves(c, s, s')
    ensures Keeps(c, s, s')
  {
    if SameUnits(s, s') { SameUnitsConserve(c, s, s'); }
    OnlyRecord(c, s, s', o);
    OtherJobs(c, s, s', o, -1);
  }

  function Moved(r: Record, pc: PlacePc): Record
    requires r.place.Some?
  {
    r.(place := Some(r.place.value.(pc := pc)))
  }

  lemma SweepRecord(c: Config, o: OrderId, r: Record, now: int, key: InvKey, offset: nat)
    requires RecordInv(c, o, r, now) && r.place.Some? && r.place.value.pc == Sweep(offset)
    requires key.Shard? && key.sku == r.place.value.sku && key.index < c.shards
    ensures RecordInv(c, o, Moved(r, AfterProbe(c, offset)), now)
    ensures RecordInv(c, o, Moved(r, SoldOut), now)
    ensures RecordInv(c, o, Moved(r.(win := Some(key)), Mark(key)), now)
  {
  }

  lemma SweepEffect(c: Config, s: State, o: OrderId, offset: nat, oc: Outcome, key: InvKey, s': State)
    requires o in s.places && s.places[o].pc == Sweep(offset) && NonNegative(s.stock)
    requires key == Probe(s.places[o].sku, Home(c, s.places[o].user), offset, c.shards)
    requires s' == SweepStep(c, s, o, offset, oc)
    ensures PlaceFrame(s, s', o) && NonNegative(s'.stock)
    ensures var r := Look(s, o);
      || Look(s', o) == Moved(r, SoldOut)
      || Look(s', o) == Moved(r, AfterProbe(c, offset))
      || Look(s', o) == Moved(r.(win := Some(key)), Mark(key))
  {
    ReserveStaysNonNegative(s.stock, key);
  }

  lemma SweepLedger(c: Config, s: State, o: OrderId, offset: nat, oc: Outcome, s': State, sku: Sku)
    requires Inv(c, s) && o in s.places && s.places[o].pc == Sweep(offset)
    requires s' == SweepStep(c, s, o, offset, oc)
    ensures Ledger(c, s', sku) == Ledger(c, s, sku)
  {
    assert OrderInv(c, s, o);
    var p := s.places[o];
    var key := Probe(p.sku, Home(c, p.user), offset, c.shards);
    ReserveTotal(s.stock, sku, c.shards, key);
    if oc.Ok? && ReserveStock(s.stock, key).ok && sku == p.sku {
      assert Look(s, o).win.None? && o !in Held(s, sku);
      assert Held(s', sku) == Held(s, sku) + {o};
    } else {
      assert Held(s', sku) == Held(s, sku);
    }
  }

  lemma SweepConserves(c: Config, s: State, o: OrderId, offset: nat, oc: Outcome, s': State)
    requires Inv(c, s) && o in s.places && s.places[o].pc == Sweep(offset)
    requires s' == SweepStep(c, s, o, offset, oc)
    ensures Conserves(c, s, s')
  {
    ReserveStockTakesOneIfAny(s.stock, Probe(s.places[o].sku, Home(c, s.places[o].user), offset, c.shards));
    forall sku { SweepLedger(c, s, o, offset, oc, s', sku); }
  }

  lemma SweepKeeps(c: Config, s: State, o: OrderId, offset: nat, oc: Outcome, s': State)
    requires Inv(c, s) && o in s.places && s.places[o].pc == Sweep(offset)
    requires s' == SweepStep(c, s, o, offset, oc)
    ensures Keeps(c, s, s') && PlaceFrame(s, s', o) && AckFrame(s, s', o, oc)
  {
    var key := Probe(s.places[o].sku, Home(c, s.places[o].user), offset, c.shards);
    assert OrderInv(c, s, o);
    SweepEffect(c, s, o, offset, oc, key, s');
    SweepRecord(c, o, Look(s, o), s.now, key, offset);
    SweepConserves(c, s, o, offset, oc, s');
    PlaceKeeps(c, s, s', o);
  }

  lemma LatchKeeps(c: Config, s: State, o: OrderId, oc: Outcome, s': State)
    requires Inv(c, s) && o in s.places && (s.places[o].pc.CheckLatch? || s.places[o].pc.Latch?)
    requires s' == StepOfPlace(c, s, o, oc)
    ensures Keeps(c, s, s') && PlaceFrame(s, s', o) && AckFrame(s, s', o, oc)
  {
    assert OrderInv(c, s, o);
    assert Look(s', o) == Moved(Look(s, o), s'.places[o].pc);
    PlaceKeeps(c, s, s', o);
  }

  lemma MarkEffect(c: Config, s: State, o: OrderId, key: InvKey, oc: Outcome, s': State)
    requires o in s.places && s' == MarkStep(c, s, o, key, oc)
    ensures PlaceFrame(s, s', o) && SameUnits(s, s') && o in s'.places
    ensures s'.places[o].pc == if oc.Ok? then Publish(key, 0) else Refunding(key, Release)
    ensures var r := Look(s, o);
      var written := if oc.TookEffect()
        then r.(cell := Some(Reserved(s.now + c.reservationTTL)), reserved := r.reserved + 1) else r;
      Look(s', o) == Moved(written, s'.places[o].pc)
  {
  }

  lemma MarkKeeps(c: Config, s: State, o: OrderId, key: InvKey, oc: Outcome, s': State)
    requires Inv(c, s) && o in s.places && s.places[o].pc == Mark(key)
    requires s' == MarkStep(c, s, o, key, oc)
    ensures Keeps(c, s, s') && PlaceFrame(s, s', o) && AckFrame(s, s', o, oc)
  {
    assert OrderInv(c, s, o);
    MarkEffect(c, s, o, key, oc, s');
    PlaceKeeps(c, s, s', o);
  }

  lemma PublishEffect(c: Config, s: State, o: OrderId, key: InvKey, attempt: nat, oc: Outcome, s': State)
    requires o in s.places && s' == PublishStep(s, o, key, attempt, oc)
    ensures PlaceFrame(s, s', o) && SameUnits(s, s') && o in s'.places
    ensures var pc := s'.places[o].pc;
      if oc.Ok? then pc.Placed? else pc == Refunding(key, Release) || (pc.Publish? && pc.key == key)
    ensures var r := Look(s, o);
      var stored := if oc.TookEffect()
        then r.(event := Some(EventOf(s, o, key)), unacked := r.unacked || oc.Lost?) else r;
      Look(s', o) == Moved(stored, s'.places[o].pc)
  {
  }

  lemma PublishKeeps(c: Config, s: State, o: OrderId, key: InvKey, attempt: nat, oc: Outcome, s': State)
    requires Inv(c, s) && o in s.places && s.places[o].pc == Publish(key, attempt)
    requires s' == PublishStep(s, o, key, attempt, oc)
    ensures Keeps(c, s, s') && PlaceFrame(s, s', o) && AckFrame(s, s', o, oc)
  {
    assert OrderInv(c, s, o);
    PublishEffect(c, s, o, key, attempt, oc, s');
    PlaceKeeps(c, s, s', o);
  }

  // ---- Compensate

  /** The record of an order after one step of `Compensate` for it. */
  function CompensatedRecord(r: Record, now: int, who: Party, cpc: CompPc, oc: Outcome): Record {
    if cpc.Release? && oc.TookEffect() && r.cell.Some? && r.cell.value.Reserved? && now < r.cell.value.until
    then r.(cell := Some(Cell.Compensated), refunds := r.refunds + 1, refundedBy := Some(who))
    else r
  }

  lemma CompensatedFrame(s: State, o: OrderId, key: InvKey, who: Party, cpc: CompPc, oc: Outcome, s': State)
    requires s' == Compensate(s, o, key, who, cpc, oc)
    ensures PlaceFrame(s, s', o)
    ensures s'.places == s.places
  {
  }

  lemma CompensatedEffect(s: State, o: OrderId, key: InvKey, who: Party, cpc: CompPc, oc: Outcome, s': State)
    requires s' == Compensate(s, o, key, who, cpc, oc)
    ensures Look(s', o) == CompensatedRecord(Look(s, o), s.now, who, cpc, oc)
  {
  }

  lemma CompensatedStock(s: State, o: OrderId, key: InvKey, who: Party, cpc: CompPc, oc: Outcome)
    requires NonNegative(s.stock)
    ensures NonNegative(Compensate(s, o, key, who, cpc, oc).stock)
  {
  }

  lemma CompensateConserves(c: Config, s: State, o: OrderId, key: InvKey, who: Party,
                            cpc: CompPc, oc: Outcome, s': State, sku: Sku)
    requires Inv(c, s) && o in s.hist.wins && s' == Compensate(s, o, key, who, cpc, oc)
    requires key.Shard? && key.sku == s.hist.wins[o].sku && key.index < c.shards
    ensures Ledger(c, s', sku) == Ledger(c, s, sku)
  {
    assert OrderInv(c, s, o);
    TotalAdd(s.stock, sku, c.shards, key, 1);
    if s'.hist.refunds != s.hist.refunds && key.sku == sku {
      assert Look(s, o).refunds == 0 && o in Held(s, sku);
      assert Held(s', sku) == Held(s, sku) - {o};
    } else {
      assert Held(s', sku) == Held(s, sku);
    }
  }

  /** A refund by a job keeps what is known of the record. */
  lemma JobRefundRecord(c: Config, o: OrderId, r: Record, now: int, who: Party, cpc: CompPc, oc: Outcome, i: int, r': Record)
    requires RecordInv(c, o, r, now) && r.win.Some? && r' == CompensatedRecord(r, now, who, cpc, oc)
    requires who != ByPlace && (who.ByTimeout? ==> IsCancelled(r)) && (who.ByDlq? ==> r.event.Some? && r.dead)
    ensures RecordInv(c, o, r', now) && Respects(i, r, r') && Evolves(now, r, r')
  {
  }

  /** So does the refund by Place itself. */
  lemma PlaceRefundRecord(c: Config, o: OrderId, r: Record, now: int, key: InvKey, cpc: CompPc, oc: Outcome, pc: PlacePc, r': Record)
    requires RecordInv(c, o, r, now) && r.place.Some? && r.place.value.pc == Refunding(key, cpc)
    requires pc == (if r' != Moved(r, pc) && oc.Ok? then Refunding(key, Unlatch) else Errored)
    requires r' == Moved(CompensatedRecord(r, now, ByPlace, cpc, oc), pc)
    ensures RecordInv(c, o, r', now) && Respects(-1, r, r') && Evolves(now, r, r')
  {
  }

  /** A compensating process: the release, then only its program counter. */
  lemma RefundConserves(c: Config, s: State, o: OrderId, key: InvKey, who: Party,
                        cpc: CompPc, oc: Outcome, mid: State, s': State)
    requires Inv(c, s) && o in s.hist.wins && mid == Compensate(s, o, key, who, cpc, oc)
    requires key.Shard? && key.sku == s.hist.wins[o].sku && key.index < c.shards
    requires SameUnits(mid, s')
    ensures Conserves(c, s, s')
  {
    SameUnitsConserve(c, mid, s');
    forall sku { CompensateConserves(c, s, o, key, who, cpc, oc, mid, sku); }
  }

  lemma GoPlaceEffect(s: State, o: OrderId, pc: PlacePc, s': State)
    requires o in s.places && s' == GoPlace(s, o, pc)
    ensures PlaceFrame(s, s', o) && SameUnits(s, s') && Look(s', o) == Moved(Look(s, o), pc)
  {
  }

  lemma RefundingKeeps(c: Config, s: State, o: OrderId, key: InvKey, cpc: CompPc, oc: Outcome, s': State)
    requires Inv(c, s) && o in s.places && s.places[o].pc == Refunding(key, cpc)
    requires s' == StepOfPlace(c, s, o, oc)
    ensures Keeps(c, s, s') && PlaceFrame(s, s', o) && AckFrame(s, s', o, oc)
  {
    assert OrderInv(c, s, o);
    var mid := Compensate(s, o, key, ByPlace, cpc, oc);
    CompensatedFrame(s, o, key, ByPlace, cpc, oc, mid);
    CompensatedEffect(s, o, key, ByPlace, cpc, oc, mid);
    CompensatedStock(s, o, key, ByPlace, cpc, oc);
    GoPlaceEffect(mid, o, s'.places[o].pc, s');
    assert Look(s, o).win == Some(key);
    RefundConserves(c, s, o, key, ByPlace, cpc, oc, mid, s');
    PlaceRefundRecord(c, o, Look(s, o), s.now, key, cpc, oc, s'.places[o].pc, Look(s', o));
    PlaceKeeps(c, s, s', o);
  }

  lemma PlaceStepKeeps(c: Config, s: State, o: OrderId, oc: Outcome, s': State)
    requires Inv(c, s) && o in s.places && s' == StepOfPlace(c, s, o, oc)
    ensures Keeps(c, s, s') && PlaceFrame(s, s', o) && AckFrame(s, s', o, oc)
  {
    match s.places[o].pc
    case CheckLatch => LatchKeeps(c, s, o, oc, s');
    case Sweep(offset) => SweepKeeps(c, s, o, offset, oc, s');
    case Latch => LatchKeeps(c, s, o, oc, s');
    case Mark(key) => MarkKeeps(c, s, o, key, oc, s');
    case Publish(key, attempt) => PublishKeeps(c, s, o, key, attempt, oc, s');
    case Refunding(key, cpc) => RefundingKeeps(c, s, o, key, cpc, oc, s');
    case _ => NothingKeeps(c, s);
  }

  // ---- steps of jobs

  /** What a step of job `i` on order `o` leaves alone. */
  ghost predicate JobFrame(s: State, s': State, o: OrderId, i: nat) {
    && s'.now == s.now && |s'.jobs| == |s.jobs|
    && (forall x :: x != o ==> Look(s', x) == Look(s, x))
    && SamePlace(Look(s, o), Look(s', o))
    && (forall j | 0 <= j < |s.jobs| && j != i :: s'.jobs[j] == s.jobs[j])
  }

  predicate SamePlace(r: Record, r': Record) {
    r'.place == r.place && r'.unacked == r.unacked && r'.dead == r.dead
  }

  /** What a step of job `i` leaves alone, whatever it works on. */
  ghost predicate JobsFrame(s: State, s': State, i: nat) {
    && s'.now == s.now && |s'.jobs| == |s.jobs|
    && (forall x :: SamePlace(Look(s, x), Look(s', x)))
    && (forall j | 0 <= j < |s.jobs| && j != i :: s'.jobs[j] == s.jobs[j])
  }

  /** The job's next order, if it has one, starts at the guard. */
  lemma JobKeeps(c: Config, s: State, s': State, o: OrderId, i: nat)
    requires Inv(c, s) && i < |s.jobs| && NonNegative(s'.stock) && JobFrame(s, s', o, i)
    requires OrderInv(c, s', o) && Respects(i, Look(s, o), Look(s', o)) && Evolves(s.now, Look(s, o), Look(s', o))
    requires OneOrderPerUserAndEvent(s')
    requires || s'.jobs[i] == Finished || (s'.jobs[i].Timeout? && s'.jobs[i].tpc.Guard?)
             || (Subject(s'.jobs[i]) == Some(o) && JobInv(c, i, s'.jobs[i], Look(s', o)))
    requires SameUnits(s, s') || Conserves(c, s, s')
    ensures Keeps(c, s, s') && JobsFrame(s, s', i)
  {
    if SameUnits(s, s') { SameUnitsConserve(c, s, s'); }
    OnlyRecord(c, s, s', o);
    OtherJobs(c, s, s', o, i);
  }

  /** A step that touches nothing that the records show, but the program counter. */
  lemma QuietJobKeeps(c: Config, s: State, i: nat, job: Job, s': State)
    requires Inv(c, s) && i < |s.jobs| && NonNegative(s'.stock)
    requires s'.now == s.now && s'.jobs == s.jobs[i := job] && s'.rows == s.rows
    requires forall x :: Look(s', x) == Look(s, x)
    requires || Subject(job).None? || (job.Timeout? && job.tpc.Guard?)
             || JobInv(c, i, job, Look(s, Subject(job).value))
    requires SameUnits(s, s')
    ensures Keeps(c, s, s') && JobsFrame(s, s', i)
  {
    SameUnitsConserve(c, s, s');
    SameRecords(c, s, s');
    forall j | 0 <= j < |s'.jobs| && Subject(s'.jobs[j]).Some?
      ensures JobInv(c, j, s'.jobs[j], Look(s', Subject(s'.jobs[j]).value))
    {
      if j != i {
        assert JobInv(c, j, s.jobs[j], Look(s, Subject(s.jobs[j]).value));
      }
    }
  }

  lemma JobKnows(c: Config, s: State, i: nat)
    requires Inv(c, s) && i < |s.jobs| && Subject(s.jobs[i]).Some?
    ensures var o := Subject(s.jobs[i]).value;
      OrderInv(c, s, o) && JobInv(c, i, s.jobs[i], Look(s, o))
  {
  }

  lemma InsertEffect(c: Config, s: State, i: nat, ev: Event, expires: int, oc: Outcome, s': State)
    requires i < |s.jobs| && s' == InsertStep(c, s, i, ev, expires, oc)
    ensures JobFrame(s, s', ev.order, i) && SameUnits(s, s')
    ensures Look(s', ev.order) ==
      if oc.TookEffect() && InsertReply(c, s, ev).NewRow?
      then Look(s, ev.order).(row := Some(Row(ev.user, ev.event, ev.sku, ev.qty, Pending, expires, s.now, 1)))
      else Look(s, ev.order)
    ensures s'.jobs[i] == Finished || (s'.jobs[i] == Handle(ev, expires, Flip) && Look(s', ev.order).row.Some?)
  {
  }

  lemma InsertStaysUnique(c: Config, s: State, i: nat, ev: Event, expires: int, oc: Outcome, s': State)
    requires OneOrderPerUserAndEvent(s) && i < |s.jobs| && s' == InsertStep(c, s, i, ev, expires, oc)
    ensures OneOrderPerUserAndEvent(s')
  {
  }

  lemma InsertKeeps(c: Config, s: State, i: nat, ev: Event, expires: int, oc: Outcome, s': State)
    requires Inv(c, s) && i < |s.jobs| && s.jobs[i] == Handle(ev, expires, Insert)
    requires s' == InsertStep(c, s, i, ev, expires, oc)
    ensures Keeps(c, s, s') && JobsFrame(s, s', i)
  {
    JobKnows(c, s, i);
    InsertEffect(c, s, i, ev, expires, oc, s');
    InsertStaysUnique(c, s, i, ev, expires, oc, s');
    JobKeeps(c, s, s', ev.order, i);
  }

  lemma FlipKeeps(c: Config, s: State, i: nat, oc: Outcome, s': State)
    requires Inv(c, s) && i < |s.jobs| && s.jobs[i].Handle? && s.jobs[i].hpc == Flip
    requires s' == HandleStep(c, s, i, oc)
    ensures Keeps(c, s, s') && JobsFrame(s, s', i)
  {
    JobKnows(c, s, i);
    var o := s.jobs[i].ev.order;
    var r := Look(s, o);
    assert Look(s', o) == if oc.TookEffect() then r.(cell := Some(Published)) else r;
    JobKeeps(c, s, s', o, i);
  }

  lemma ArmKeeps(c: Config, s: State, i: nat, oc: Outcome, s': State)
    requires Inv(c, s) && i < |s.jobs| && s.jobs[i].Handle? && s.jobs[i].hpc.Arm?
    requires s' == HandleStep(c, s, i, oc)
    ensures Keeps(c, s, s') && JobsFrame(s, s', i)
  {
    JobKnows(c, s, i);
    QuietJobKeeps(c, s, i, s'.jobs[i], s');
  }

  lemma GuardKeeps(c: Config, s: State, i: nat, oc: Outcome, s': State)
    requires Inv(c, s) && i < |s.jobs| && s.jobs[i].Timeout? && (s.jobs[i].tpc.Guard? || s.jobs[i].tpc.Get?)
    requires s' == TimeoutStep(c, s, i, oc)
    ensures Keeps(c, s, s') && JobsFrame(s, s', i)
  {
    JobKnows(c, s, i);
    QuietJobKeeps(c, s, i, s'.jobs[i], s');
  }

  lemma CancelEffect(c: Config, s: State, i: nat, o: OrderId, user: UserId, sku: Sku,
                     rest: seq<OrderId>, oc: Outcome, s': State)
    requires i < |s.jobs| && s' == CancelStep(c, s, i, o, user, sku, rest, oc)
    ensures JobFrame(s, s', o, i) && SameUnits(s, s')
    ensures var r := Look(s, o);
      Look(s', o) ==
      if oc.TookEffect() && Due(s, o)
      then r.(row := Some(r.row.value.(status := Cancelled, version := r.row.value.version + 1)),
              cancel := Some(i), cancelCount := r.cancelCount + 1, cancelledAt := Some(s.now))
      else r
    ensures OneOrderPerUserAndEvent(s) ==> OneOrderPerUserAndEvent(s')
  {
  }

  lemma CancelKeeps(c: Config, s: State, i: nat, o: OrderId, user: UserId, sku: Sku,
                    rest: seq<OrderId>, oc: Outcome, s': State)
    requires Inv(c, s) && i < |s.jobs| && s.jobs[i] == Timeout(o, Cancel(user, sku), rest)
    requires s' == CancelStep(c, s, i, o, user, sku, rest, oc)
    ensures Keeps(c, s, s') && JobsFrame(s, s', i)
  {
    JobKnows(c, s, i);
    CancelEffect(c, s, i, o, user, sku, rest, oc, s');
    JobKeeps(c, s, s', o, i);
  }

  lemma GoJobEffect(s: State, i: nat, job: Job, s': State)
    requires i < |s.jobs| && s' == GoJob(s, i, job)
    ensures forall x :: Look(s', x) == Look(s, x)
    ensures s'.rows == s.rows && SameUnits(s, s') && s'.now == s.now && s'.jobs == s.jobs[i := job]
  {
  }

  /** Shared by the two kinds of jobs that compensate. */
  lemma CompensatingJobKeeps(c: Config, s: State, i: nat, o: OrderId, key: InvKey, who: Party,
                             cpc: CompPc, oc: Outcome, mid: State, job: Job, s': State)
    requires Inv(c, s) && i < |s.jobs| && Subject(s.jobs[i]) == Some(o)
    requires o in s.hist.wins && key.Shard? && key.sku == s.hist.wins[o].sku && key.index < c.shards
    requires who != ByPlace && (who.ByTimeout? ==> IsCancelled(Look(s, o))) && (who.ByDlq? ==> Look(s, o).event.Some? && Look(s, o).dead)
    requires mid == Compensate(s, o, key, who, cpc, oc) && mid.jobs == s.jobs && s' == GoJob(mid, i, job)
    requires job == Finished ||
      (Subject(job) == Some(o) && JobInv(c, i, job, CompensatedRecord(Look(s, o), s.now, who, cpc, oc)))
    ensures Keeps(c, s, s') && JobsFrame(s, s', i)
  {
    JobKnows(c, s, i);
    CompensatedFrame(s, o, key, who, cpc, oc, mid);
    CompensatedEffect(s, o, key, who, cpc, oc, mid);
    CompensatedStock(s, o, key, who, cpc, oc);
    GoJobEffect(mid, i, job, s');
    RefundConserves(c, s, o, key, who, cpc, oc, mid, s');
    JobRefundRecord(c, o, Look(s, o), s.now, who, cpc, oc, i, Look(s', o));
    JobKeeps(c, s, s', o, i);
  }

  /** The shard a timeout or a dead letter refunds belongs to the SKU that was taken. */
  lemma JobKeyInRange(c: Config, s: State, i: nat)
    requires Inv(c, s) && i < |s.jobs|
    ensures s.jobs[i].Timeout? && s.jobs[i].tpc.Restock? ==>
      var o, key := s.jobs[i].order, s.jobs[i].tpc.key;
      o in s.hist.wins && key.Shard? && key.sku == s.hist.wins[o].sku && key.index < c.shards
    ensures s.jobs[i].Dlq? ==>
      var ev := s.jobs[i].ev;
      && ev.order in s.hist.wins && ev.key == Some(s.hist.wins[ev.order]) && DlqKey(c, ev) == s.hist.wins[ev.order]
      && DlqKey(c, ev).Shard? && DlqKey(c, ev).index < c.shards
  {
    if Subject(s.jobs[i]).Some? {
      JobKnows(c, s, i);
    }
  }

  lemma RestockKeeps(c: Config, s: State, i: nat, oc: Outcome, s': State)
    requires Inv(c, s) && i < |s.jobs| && s.jobs[i].Timeout? && s.jobs[i].tpc.Restock?
    requires s' == TimeoutStep(c, s, i, oc)
    ensures Keeps(c, s, s') && JobsFrame(s, s', i)
  {
    JobKnows(c, s, i);
    JobKeyInRange(c, s, i);
    var Timeout(o, Restock(key, cpc), rest) := s.jobs[i];
    CompensatingJobKeeps(c, s, i, o, key, ByTimeout, cpc, oc,
                         Compensate(s, o, key, ByTimeout, cpc, oc), s'.jobs[i], s');
  }

  lemma DlqKeeps(c: Config, s: State, i: nat, oc: Outcome, s': State)
    requires Inv(c, s) && i < |s.jobs| && s.jobs[i].Dlq?
    requires s' == StepOfJob(c, s, i, oc, [])
    ensures Keeps(c, s, s') && JobsFrame(s, s', i)
  {
    JobKnows(c, s, i);
    JobKeyInRange(c, s, i);
    var Dlq(ev, cpc) := s.jobs[i];
    CompensatingJobKeeps(c, s, i, ev.order, DlqKey(c, ev), ByDlq, cpc, oc,
                         Compensate(s, ev.order, DlqKey(c, ev), ByDlq, cpc, oc), s'.jobs[i], s');
  }

  lemma AnnounceKeeps(c: Config, s: State, i: nat, oc: Outcome, s': State)
    requires Inv(c, s) && i < |s.jobs| && s.jobs[i].Timeout? && s.jobs[i].tpc.Announce?
    requires s' == TimeoutStep(c, s, i, oc)
    ensures Keeps(c, s, s') && JobsFrame(s, s', i)
  {
    JobKnows(c, s, i);
    var o := s.jobs[i].order;
    assert Look(s', o) == Look(s, o).(announced := Look(s, o).announced + 1);
    JobKeeps(c, s, s', o, i);
  }

  lemma TimeoutStepKeeps(c: Config, s: State, i: nat, oc: Outcome, s': State)
    requires Inv(c, s) && i < |s.jobs| && s.jobs[i].Timeout? && s' == TimeoutStep(c, s, i, oc)
    ensures Keeps(c, s, s') && JobsFrame(s, s', i)
  {
    match s.jobs[i].tpc
    case Guard => GuardKeeps(c, s, i, oc, s');
    case Get => GuardKeeps(c, s, i, oc, s');
    case Cancel(user, sku) => CancelKeeps(c, s, i, s.jobs[i].order, user, sku, s.jobs[i].rest, oc, s');
    case Restock(_, _) => RestockKeeps(c, s, i, oc, s');
    case Announce => AnnounceKeeps(c, s, i, oc, s');
  }

  lemma ReconcileKeeps(c: Config, s: State, i: nat, oc: Outcome, page: seq<OrderId>, s': State)
    requires Inv(c, s) && i < |s.jobs| && (s.jobs[i].Lead? || s.jobs[i].Fetch?)
    requires s' == StepOfJob(c, s, i, oc, page)
    ensures Keeps(c, s, s') && JobsFrame(s, s', i)
  {
    QuietJobKeeps(c, s, i, s'.jobs[i], s');
  }

  lemma JobStepKeeps(c: Config, s: State, i: nat, oc: Outcome, page: seq<OrderId>, s': State)
    requires Inv(c, s) && i < |s.jobs| && s' == StepOfJob(c, s, i, oc, page)
    ensures Keeps(c, s, s') && JobsFrame(s, s', i)
  {
    match s.jobs[i]
    case Handle(ev, expires, Insert) => InsertKeeps(c, s, i, ev, expires, oc, s');
    case Handle(_, _, Flip) => FlipKeeps(c, s, i, oc, s');
    case Handle(_, _, Arm(_)) => ArmKeeps(c, s, i, oc, s');
    case Timeout(_, _, _) => TimeoutStepKeeps(c, s, i, oc, s');
    case Lead => ReconcileKeeps(c, s, i, oc, page, s');
    case Fetch => ReconcileKeeps(c, s, i, oc, page, s');
    case Dlq(_, _) => DlqKeeps(c, s, i, oc, s');
    case Finished => NothingKeeps(c, s);
  }

  // ---- the environment, and whole runs

  lemma SpawnKeeps(c: Config, s: State, job: Job, s': State)
    requires Inv(c, s) && s' == Spawn(s, job)
    requires Subject(job).Some? ==> JobInv(c, |s.jobs|, job, Look(s, Subject(job).value))
    ensures Keeps(c, s, s')
  {
    SameUnitsConserve(c, s, s');
    assert forall x :: Look(s', x) == Look(s, x);
    SameRecords(c, s, s');
  }

  lemma DeadLetterKeeps(c: Config, s: State, o: OrderId, s': State)
    requires Inv(c, s) && o in s.stream && s' == DeadLetterArrives(s, o)
    ensures Keeps(c, s, s')
  {
    var mid := s.(hist := s'.hist);
    assert OrderInv(c, s, o);
    assert Look(mid, o) == Look(s, o).(dead := true);
    OnlyRecord(c, s, mid, o);
    OtherJobs(c, s, mid, o, -1);
    SameUnitsConserve(c, s, mid);
    SpawnKeeps(c, mid, Dlq(s.stream[o], Release), s');
  }

  lemma BeginKeeps(c: Config, s: State, o: OrderId, user: UserId, event: string, sku: Sku, qty: int, s': State)
    requires Inv(c, s) && o !in s.places && s' == BeginPlace(s, o, user, event, sku, qty)
    ensures Keeps(c, s, s')
  {
    SameUnitsConserve(c, s, s');
    assert OrderInv(c, s, o);
    assert Look(s', o) == Look(s, o).(place := Some(s'.places[o]));
    OnlyRecord(c, s, s', o);
    OtherJobs(c, s, s', o, -1);
  }

  lemma PayKeeps(c: Config, s: State, o: OrderId, s': State)
    requires Inv(c, s) && Payable(s, o) && s' == PayRow(s, o)
    ensures Keeps(c, s, s')
  {
    SameUnitsConserve(c, s, s');
    assert OrderInv(c, s, o);
    assert Look(s', o) == Look(s, o).(row := Some(s'.rows[o]));
    OnlyRecord(c, s, s', o);
    OtherJobs(c, s, s', o, -1);
  }

  lemma AdvanceKeeps(c: Config, s: State, to: int, s': State)
    requires Inv(c, s) && s.now <= to && s' == s.(now := to)
    ensures Keeps(c, s, s')
  {
    SameUnitsConserve(c, s, s');
    assert forall x :: Look(s', x) == Look(s, x);
    SameRecords(c, s, s');
  }

  lemma NothingKeeps(c: Config, s: State)
    requires Inv(c, s)
    ensures Keeps(c, s, s)
  {
  }

  lemma EnvironmentKeeps(c: Config, s: State, a: Action, s': State)
    requires Inv(c, s) && !a.PlaceStep? && !a.JobStep? && s' == Apply(c, s, a) && s' != s
    ensures Keeps(c, s, s')
  {
    match a
    case Begin(o, user, event, sku, qty) => BeginKeeps(c, s, o, user, event, sku, qty, s');
    case Deliver(o) =>
      assert OrderInv(c, s, o);
      SpawnKeeps(c, s, Handle(s.stream[o], s.now + c.paymentWindow, Insert), s');
    case Fire(t) => SpawnKeeps(c, s, Timeout(t.order, Guard, []), s');
    case Tick => SpawnKeeps(c, s, Lead, s');
    case DeadLetter(o) => DeadLetterKeeps(c, s, o, s');
    case Pay(o) => PayKeeps(c, s, o, s');
    case Advance(to) => AdvanceKeeps(c, s, to, s');
  }

  lemma StepKeeps(c: Config, s: State, a: Action, s': State)
    requires Inv(c, s) && s' == Apply(c, s, a)
    ensures Keeps(c, s, s')
  {
    NothingKeeps(c, s);
    if s' != s {
      if a.PlaceStep? {
        PlaceStepKeeps(c, s, a.order, a.oc, s');
      } else if a.JobStep? {
        JobStepKeeps(c, s, a.job, a.oc, a.page, s');
      } else {
        EnvironmentKeeps(c, s, a, s');
      }
    }
  }

  lemma {:induction false} RunKeeps(c: Config, s: State, acts: seq<Action>)
    requires Inv(c, s)
    ensures Inv(c, Run(c, s, acts)) && Conserves(c, s, Run(c, s, acts)) && s.now <= Run(c, s, acts).now
  {
    if acts != [] {
      RunKeeps(c, s, acts[..|acts| - 1]);
      StepKeeps(c, Run(c, s, acts[..|acts| - 1]), acts[|acts| - 1], Run(c, s, acts));
    }
  }
}
