/** The flash-sale purchase protocol as a step system.

    Every Redis command or Lua script, SQL statement and JetStream publish is one
    atomic step on the shared stores. The processes that issue them (calls of `Place`,
    deliveries to `handleOrder`, `ProcessTimeout`, the reconciler and the dead-letter
    handler) are sequential programs with a program counter; any number of them run at
    once and their steps interleave in any order. Each step has an `Outcome`. */
module OrderModel {
  import opened Common
  import opened Inventory

  type OrderId = string
  type UserId = string
  type Sku = string

  const SECOND := 1_000_000
  const GUARD_TTL := 24 * 3600 * SECOND
  const LEADER_TTL := 60 * SECOND
  const PUBLISH_ATTEMPTS := 3
  const PAGE_LIMIT := 100

  // ---- configuration

  datatype AnyConfig = Config(
    shards: nat,
    hash: UserId -> nat,      // FNV-1a of the user id
    reservationTTL: nat,
    paymentWindow: nat,
    users: set<UserId>,       // rows of openwar.users
    products: set<Sku>)       // rows of openwar.products

  type Config = c: AnyConfig | c.shards > 0 && c.reservationTTL > 0
    witness Config(1, _ => 0, 1, 0, {}, {})

  function Home(c: Config, user: UserId): nat {
    c.hash(user) % c.shards
  }

  // ---- shared stores

  datatype Status = Pending | Paid | Cancelled

  datatype Row = Row(user: UserId, event: string, sku: Sku, qty: int,
                     status: Status, expires: int, created: int, version: int)

  /** The message on orders.created; `key.None?` is an empty shardKey field. */
  datatype Event = Event(order: OrderId, user: UserId, event: string, sku: Sku, qty: int,
                         key: Option<InvKey>)

  /** A scheduled message that fires on orders.timeout at or after `at`. */
  datatype Timer = Timer(order: OrderId, at: int)

  // ---- processes

  /** `Compensate`: the release script, then the deletion of the sold-out latch. */
  datatype CompPc = Release | Unlatch

  datatype PlacePc =
    | CheckLatch
    | Sweep(offset: nat)
    | Latch
    | Mark(key: InvKey)
    | Publish(key: InvKey, attempt: nat)
    | Refunding(key: InvKey, cpc: CompPc)
    | Placed
    | SoldOut
    | Errored

  datatype Place = Place(user: UserId, event: string, sku: Sku, qty: int, pc: PlacePc)

  datatype HandlePc = Insert | Flip | Arm(attempt: nat)

  datatype TimeoutPc =
    | Guard
    | Get
    | Cancel(user: UserId, sku: Sku)
    | Restock(key: InvKey, cpc: CompPc)
    | Announce

  /** `rest` lists the orders a reconciler pass still has to go through. */
  datatype Job =
    | Handle(ev: Event, expires: int, hpc: HandlePc)
    | Timeout(order: OrderId, tpc: TimeoutPc, rest: seq<OrderId>)
    | Lead
    | Fetch
    | Dlq(ev: Event, dpc: CompPc)
    | Finished

  // ---- bookkeeping that no step reads

  datatype Party = ByPlace | ByTimeout | ByDlq

  datatype History = History(
    wins: map<OrderId, InvKey>,       // the decrement reported to the order's sweep
    lost: multiset<Sku>,              // decrements whose reply was lost
    reserved: multiset<OrderId>,      // writes of RESERVED
    refunds: multiset<OrderId>,       // units put back for the order
    refundedBy: map<OrderId, Party>,
    cancels: map<OrderId, nat>,       // the job whose UPDATE cancelled the row
    cancelCount: multiset<OrderId>,
    cancelledAt: map<OrderId, int>,
    announced: multiset<OrderId>,     // attempted publishes on orders.cancelled
    unacked: set<OrderId>,            // stored events whose publish reported an error
    deadLettered: set<OrderId>)       // orders whose event arrived on orders.dlq

  datatype State = State(
    stock: Stock,                     // Redis inventory:<sku>:shard:<i>
    soldOut: set<Sku>,                // Redis soldout:<sku>
    cells: Cells,                     // Redis reservation:<order>
    guards: map<OrderId, int>,        // Redis cancel:<order>, with expiry
    leader: int,                      // Redis reconciler:leader, free from this time on
    rows: map<OrderId, Row>,          // openwar.orders
    stream: map<OrderId, Event>,      // stored orders.created messages
    timers: set<Timer>,               // stored schedules
    places: map<OrderId, Place>,
    jobs: seq<Job>,
    now: int,
    hist: History)

  ghost predicate Start(s: State) {
    && NonNegative(s.stock)
    && s.cells == map[] && s.guards == map[] && s.rows == map[] && s.stream == map[]
    && s.timers == {} && s.places == map[] && s.jobs == []
    && s.hist == History(map[], multiset{}, multiset{}, multiset{}, map[], map[], multiset{}, map[], multiset{}, {}, {})
  }

  // ---- effects shared by several processes

  /** The stores after one step of `Compensate`. */
  function Compensate(s: State, o: OrderId, key: InvKey, who: Party, cpc: CompPc, oc: Outcome): State {
    var r := ReleaseStock(s.stock, s.cells, s.now, o, key);
    var releases := oc.TookEffect() && cpc.Release?;
    var restored := releases && r.restored;
    var unlatches := oc.TookEffect() && cpc.Unlatch? && key.sku != "";
    s.(stock := if releases then r.stock else s.stock,
       cells := if releases then r.cells else s.cells,
       soldOut := if unlatches then s.soldOut - {key.sku} else s.soldOut,
       hist := s.hist.(refunds := if restored then s.hist.refunds + multiset{o} else s.hist.refunds,
                       refundedBy := if restored then s.hist.refundedBy[o := who] else s.hist.refundedBy))
  }

  /** The latch is cleared only after a restoring release whose reply arrived. */
  predicate GoesOnToUnlatch(s: State, o: OrderId, cpc: CompPc, oc: Outcome) {
    cpc.Release? && oc.Ok? && Holds(s.cells, s.now, o)
  }

  // ---- Place

  function GoPlace(s: State, o: OrderId, pc: PlacePc): State
    requires o in s.places
  {
    s.(places := s.places[o := s.places[o].(pc := pc)])
  }

  function AfterProbe(c: Config, offset: nat): PlacePc {
    if offset + 1 < c.shards then Sweep(offset + 1) else Latch
  }

  function AfterAttempt(key: InvKey, attempt: nat): PlacePc {
    if attempt + 1 < PUBLISH_ATTEMPTS then Publish(key, attempt + 1) else Refunding(key, Release)
  }

  function EventOf(s: State, o: OrderId, key: InvKey): Event
    requires o in s.places
  {
    var p := s.places[o];
    Event(o, p.user, p.event, p.sku, p.qty, Some(key))
  }

  function SweepStep(c: Config, s: State, o: OrderId, offset: nat, oc: Outcome): State
    requires o in s.places
  {
    var p := s.places[o];
    var key := Probe(p.sku, Home(c, p.user), offset, c.shards);
    var r := ReserveStock(s.stock, key);
    var taken := oc.TookEffect() && r.ok;
    var hist := s.hist.(wins := if taken && oc.Ok? then s.hist.wins[o := key] else s.hist.wins,
                        lost := if taken && oc.Lost? then s.hist.lost + multiset{p.sku} else s.hist.lost);
    GoPlace(s.(stock := if oc.TookEffect() then r.stock else s.stock, hist := hist), o,
            if oc.Open? then SoldOut else if taken && oc.Ok? then Mark(key) else AfterProbe(c, offset))
  }

  function MarkStep(c: Config, s: State, o: OrderId, key: InvKey, oc: Outcome): State
    requires o in s.places
  {
    var written := oc.TookEffect();
    var hist := s.hist.(reserved := if written then s.hist.reserved + multiset{o} else s.hist.reserved);
    GoPlace(s.(cells := if written then s.cells[o := Reserved(s.now + c.reservationTTL)] else s.cells,
               hist := hist),
            o, if oc.Ok? then Publish(key, 0) else Refunding(key, Release))
  }

  function PublishStep(s: State, o: OrderId, key: InvKey, attempt: nat, oc: Outcome): State
    requires o in s.places
  {
    var hist := s.hist.(unacked := if oc.Lost? then s.hist.unacked + {o} else s.hist.unacked);
    GoPlace(s.(stream := if oc.TookEffect() then s.stream[o := EventOf(s, o, key)] else s.stream, hist := hist),
            o, match oc
               case Ok => Placed
               case Open => Refunding(key, Release)
               case _ => AfterAttempt(key, attempt))
  }

  function StepOfPlace(c: Config, s: State, o: OrderId, oc: Outcome): State
    requires o in s.places
  {
    var p := s.places[o];
    match p.pc
    case CheckLatch => GoPlace(s, o, if oc.Ok? && p.sku in s.soldOut then SoldOut else Sweep(0))
    case Sweep(offset) => SweepStep(c, s, o, offset, oc)
    case Latch =>
      GoPlace(s.(soldOut := if oc.TookEffect() then s.soldOut + {p.sku} else s.soldOut), o, SoldOut)
    case Mark(key) => MarkStep(c, s, o, key, oc)
    case Publish(key, attempt) => PublishStep(s, o, key, attempt, oc)
    case Refunding(key, cpc) =>
      GoPlace(Compensate(s, o, key, ByPlace, cpc, oc), o,
              if GoesOnToUnlatch(s, o, cpc, oc) then Refunding(key, Unlatch) else Errored)
    case _ => s
  }

  // ---- handleOrder

  function GoJob(s: State, i: nat, job: Job): State
    requires i < |s.jobs|
  {
    s.(jobs := s.jobs[i := job])
  }

  datatype Inserted = NewRow | RowExists | Rejected

  /** INSERT ... ON CONFLICT (order_id) DO NOTHING, under the foreign keys and the
      unique (user_id, event_id) constraint. */
  function InsertReply(c: Config, s: State, ev: Event): Inserted {
    if ev.order in s.rows then RowExists
    else if ev.user !in c.users || ev.sku !in c.products then Rejected
    else if exists o :: o in s.rows && s.rows[o].user == ev.user && s.rows[o].event == ev.event then Rejected
    else NewRow
  }

  function InsertStep(c: Config, s: State, i: nat, ev: Event, expires: int, oc: Outcome): State
    requires i < |s.jobs|
  {
    var reply := InsertReply(c, s, ev);
    var row := Row(ev.user, ev.event, ev.sku, ev.qty, Pending, expires, s.now, 1);
    GoJob(s.(rows := if oc.TookEffect() && reply.NewRow? then s.rows[ev.order := row] else s.rows), i,
          if oc.Ok? && !reply.Rejected? then Handle(ev, expires, Flip) else Finished)
  }

  /** The schedule header carries whole seconds only. */
  function WholeSeconds(t: int): int {
    t - t % SECOND
  }

  function FlipStep(s: State, i: nat, ev: Event, expires: int, oc: Outcome): State
    requires i < |s.jobs|
  {
    GoJob(s.(cells := if oc.TookEffect() then s.cells[ev.order := Published] else s.cells), i,
          if oc.Ok? then Handle(ev, expires, Arm(0)) else Finished)
  }

  function ArmStep(s: State, i: nat, ev: Event, expires: int, attempt: nat, oc: Outcome): State
    requires i < |s.jobs|
  {
    GoJob(s.(timers := if oc.TookEffect() then s.timers + {Timer(ev.order, WholeSeconds(expires))} else s.timers), i,
          if !oc.Ok? && !oc.Open? && attempt + 1 < PUBLISH_ATTEMPTS
          then Handle(ev, expires, Arm(attempt + 1)) else Finished)
  }

  function HandleStep(c: Config, s: State, i: nat, oc: Outcome): State
    requires i < |s.jobs| && s.jobs[i].Handle?
  {
    var Handle(ev, expires, pc) := s.jobs[i];
    match pc
    case Insert => InsertStep(c, s, i, ev, expires, oc)
    case Flip => FlipStep(s, i, ev, expires, oc)
    case Arm(attempt) => ArmStep(s, i, ev, expires, attempt, oc)
  }

  // ---- ProcessTimeout

  predicate Guarded(s: State, o: OrderId) {
    o in s.guards && s.now < s.guards[o]
  }

  predicate Due(s: State, o: OrderId) {
    o in s.rows && s.rows[o].status == Pending && s.rows[o].expires <= s.now
  }

  function NextTimeout(rest: seq<OrderId>): Job {
    if rest == [] then Finished else Timeout(rest[0], Guard, rest[1..])
  }

  /** UPDATE ... WHERE status = 'PENDING_PAYMENT' AND expires_at <= NOW() */
  function CancelStep(c: Config, s: State, i: nat, o: OrderId, user: UserId, sku: Sku,
                      rest: seq<OrderId>, oc: Outcome): State
    requires i < |s.jobs|
  {
    var cancelled := oc.TookEffect() && Due(s, o);
    var hist := s.hist.(
      cancels := if cancelled then s.hist.cancels[o := i] else s.hist.cancels,
      cancelCount := if cancelled then s.hist.cancelCount + multiset{o} else s.hist.cancelCount,
      cancelledAt := if cancelled then s.hist.cancelledAt[o := s.now] else s.hist.cancelledAt);
    GoJob(s.(rows := if cancelled
                     then s.rows[o := s.rows[o].(status := Cancelled, version := s.rows[o].version + 1)]
                     else s.rows,
             hist := hist), i,
          if oc.Ok? && cancelled then Timeout(o, Restock(Shard(sku, Home(c, user)), Release), rest)
          else NextTimeout(rest))
  }

  function TimeoutStep(c: Config, s: State, i: nat, oc: Outcome): State
    requires i < |s.jobs| && s.jobs[i].Timeout?
  {
    var Timeout(o, pc, rest) := s.jobs[i];
    var next := NextTimeout(rest);
    match pc
    case Guard =>
      GoJob(s.(guards := if oc.TookEffect() && !Guarded(s, o) then s.guards[o := s.now + GUARD_TTL] else s.guards), i,
            if oc.Ok? && !Guarded(s, o) then Timeout(o, Get, rest) else next)
    case Get =>
      GoJob(s, i, if oc.Ok? && o in s.rows then Timeout(o, Cancel(s.rows[o].user, s.rows[o].sku), rest) else next)
    case Cancel(user, sku) => CancelStep(c, s, i, o, user, sku, rest, oc)
    case Restock(key, cpc) =>
      GoJob(Compensate(s, o, key, ByTimeout, cpc, oc), i,
            Timeout(o, if GoesOnToUnlatch(s, o, cpc, oc) then Restock(key, Unlatch) else Announce, rest))
    case Announce =>
      GoJob(s.(hist := s.hist.(announced := s.hist.announced + multiset{o})), i, next)
  }

  // ---- reconciler and dead letters

  /** What FetchExpiredOrders may return: the oldest expired pending orders. */
  ghost predicate IsPage(s: State, page: seq<OrderId>) {
    && |page| <= PAGE_LIMIT
    && (forall k :: 0 <= k < |page| ==> Due(s, page[k]))
    && (forall k, l :: 0 <= k < l < |page| ==> page[k] != page[l])
    && (forall k, l :: 0 <= k < l < |page| ==> s.rows[page[k]].created <= s.rows[page[l]].created)
    && (forall o :: Due(s, o) && o !in page ==>
          |page| == PAGE_LIMIT && forall k :: 0 <= k < |page| ==> s.rows[page[k]].created <= s.rows[o].created)
  }

  function DlqKey(c: Config, ev: Event): InvKey {
    match ev.key
    case Some(key) => key
    case None =>
      var home := Home(c, ev.user);
      if home < 10 then Shard(ev.sku, home) else Stray(ev.sku, Keys.RuneString(('0' as int) + home))
  }

  ghost function StepOfJob(c: Config, s: State, i: nat, oc: Outcome, page: seq<OrderId>): State
    requires i < |s.jobs|
  {
    match s.jobs[i]
    case Handle(_, _, _) => HandleStep(c, s, i, oc)
    case Timeout(_, _, _) => TimeoutStep(c, s, i, oc)
    case Lead =>
      GoJob(s.(leader := if oc.TookEffect() && s.leader <= s.now then s.now + LEADER_TTL else s.leader), i,
            if oc.Ok? && s.leader <= s.now then Fetch else Finished)
    case Fetch => GoJob(s, i, if oc.Ok? && IsPage(s, page) then NextTimeout(page) else Finished)
    case Dlq(ev, pc) =>
      var key := DlqKey(c, ev);
      GoJob(Compensate(s, ev.order, key, ByDlq, pc, oc), i,
            if GoesOnToUnlatch(s, ev.order, pc, oc) then Dlq(ev, Unlatch) else Finished)
    case Finished => s
  }

  // ---- runs

  datatype Action =
    | Begin(order: OrderId, user: UserId, event: string, sku: Sku, qty: int)
    | PlaceStep(order: OrderId, oc: Outcome)
    | Deliver(order: OrderId)
    | Fire(timer: Timer)
    | Tick
    | DeadLetter(order: OrderId)
    | JobStep(job: nat, oc: Outcome, page: seq<OrderId>)
    | Pay(order: OrderId)
    | Advance(to: int)

  function Spawn(s: State, job: Job): State {
    s.(jobs := s.jobs + [job])
  }

  /** A call of `Place` under a fresh order id. */
  function BeginPlace(s: State, o: OrderId, user: UserId, event: string, sku: Sku, qty: int): State {
    s.(places := s.places[o := Place(user, event, sku, if qty <= 0 then 1 else qty, CheckLatch)])
  }

  /** The payment webhook's UPDATE, which races with the timeout. */
  predicate Payable(s: State, o: OrderId) {
    o in s.rows && s.rows[o].status == Pending && s.now < s.rows[o].expires
  }

  function PayRow(s: State, o: OrderId): State
    requires o in s.rows
  {
    s.(rows := s.rows[o := s.rows[o].(status := Paid)])
  }

  function DeadLetterArrives(s: State, o: OrderId): State
    requires o in s.stream
  {
    s.(jobs := s.jobs + [Dlq(s.stream[o], Release)],
       hist := s.hist.(deadLettered := s.hist.deadLettered + {o}))
  }

  /** One step of the system. An action that is not enabled changes nothing. */
  ghost function Apply(c: Config, s: State, a: Action): State {
    match a
    case Begin(o, user, event, sku, qty) =>
      if o in s.places then s else BeginPlace(s, o, user, event, sku, qty)
    case PlaceStep(o, oc) => if o in s.places then StepOfPlace(c, s, o, oc) else s
    case Deliver(o) =>
      if o in s.stream then Spawn(s, Handle(s.stream[o], s.now + c.paymentWindow, Insert)) else s
    case Fire(t) => if t in s.timers && t.at <= s.now then Spawn(s, Timeout(t.order, Guard, [])) else s
    case Tick => Spawn(s, Lead)
    case DeadLetter(o) => if o in s.stream then DeadLetterArrives(s, o) else s
    case JobStep(i, oc, page) => if i < |s.jobs| then StepOfJob(c, s, i, oc, page) else s
    case Pay(o) => if Payable(s, o) then PayRow(s, o) else s
    case Advance(to) => if s.now <= to then s.(now := to) else s
  }

  ghost function Run(c: Config, s: State, acts: seq<Action>): State {
    if acts == [] then s
    else Apply(c, Run(c, s, acts[..|acts| - 1]), acts[|acts| - 1])
  }
}
