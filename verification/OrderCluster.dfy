/** The services of internal/order, internal/inventory/router.go and cmd/worker as code that
    updates the shared stores command by command, with every other process free to act
    before each command. Each method is proved to make exactly the steps of its process
    in the step system of `OrderModel`, so what is proved about all runs holds for it. */
module OrderCluster {
  import opened Common
  import opened Inventory
  import opened OrderModel
  import opened OrderInvariants
  import opened OrderSteps
  import opened OrderTheorems
  import opened OrderJobs
  import Calls = OrderCalls

  /** Whose program counter a method moves. */
  datatype Owner = Call(order: OrderId) | Worker(job: nat)

  predicate Mine(me: Owner, a: Action) {
    match me
    case Call(o) => a.PlaceStep? && a.order == o
    case Worker(i) => a.JobStep? && a.job == i
  }

  predicate Fails(a: Action) { (a.PlaceStep? || a.JobStep?) && a.oc != Ok }

  /** Since the run `from`, a command of this process has met an error. */
  ghost predicate SawError(me: Owner, from: seq<Action>, acts: seq<Action>) {
    exists k | |from| <= k < |acts| :: Mine(me, acts[k]) && Fails(acts[k])
  }

  /** Only others have acted. */
  ghost predicate Waited(me: Owner, from: seq<Action>, acts: seq<Action>) {
    from <= acts && forall k | |from| <= k < |acts| :: !Mine(me, acts[k])
  }

  lemma LastCommand(me: Owner, from: seq<Action>, acts: seq<Action>, a: Action)
    requires Waited(me, from, acts) && Mine(me, a)
    ensures SawError(me, from, acts + [a]) <==> Fails(a)
  {
    if Fails(a) { assert (acts + [a])[|acts|] == a; }
  }

  lemma ErrorsStay(me: Owner, from: seq<Action>, acts: seq<Action>, from': seq<Action>, acts': seq<Action>)
    requires SawError(me, from, acts) && acts <= acts' && from' <= from
    ensures SawError(me, from', acts')
  {
    var k :| |from| <= k < |acts| && Mine(me, acts[k]) && Fails(acts[k]);
    assert acts'[k] == acts[k];
  }

  /** The process of `me` exists and is the same in both states. */
  ghost predicate Untouched(me: Owner, s: State, s': State) {
    match me
    case Call(o) => o in s.places && o in s'.places && s'.places[o] == s.places[o]
    case Worker(i) => i < |s.jobs| && i < |s'.jobs| && s'.jobs[i] == s.jobs[i]
  }

  /** Steps of other processes leave this one where it is. */
  lemma {:induction false} OthersLeaveAlone(c: Config, s0: State, acts: seq<Action>, others: seq<Action>, me: Owner)
    requires Start(s0) && Untouched(me, Run(c, s0, acts), Run(c, s0, acts))
    requires forall k | 0 <= k < |others| :: !Mine(me, others[k])
    ensures Untouched(me, Run(c, s0, acts), Run(c, s0, acts + others))
  {
    if others == [] {
      assert acts + others == acts;
    } else {
      var before, a := others[..|others| - 1], others[|others| - 1];
      OthersLeaveAlone(c, s0, acts, before, me);
      assert acts + others == (acts + before) + [a];
      RunAppend(c, s0, acts + before, a);
      StartInv(c, s0);
      RunKeeps(c, s0, acts + before);
      var mid, s' := Run(c, s0, acts + before), Run(c, s0, acts + others);
      match me
      case Call(o) => OthersKeepPlace(c, mid, a, o, s');
      case Worker(i) => OthersKeepJob(c, mid, a, i, s');
    }
  }

  /** The reply to a command; `open` tells a circuit breaker's refusal from other errors. */
  datatype Reply<T> = Answer(value: T) | NoAnswer(open: bool)

  datatype TimeoutResult = Done | ErrDuplicateTimeout | ErrStore

  datatype PlaceResult = OrderId(id: OrderId) | ErrSoldOut | ErrOther

  function ResultPc(r: PlaceResult): PlacePc {
    match r
    case OrderId(_) => Placed
    case ErrSoldOut => SoldOut
    case ErrOther => Errored
  }

  function StepFor(me: Owner, oc: Outcome): Action {
    match me
    case Call(o) => PlaceStep(o, oc)
    case Worker(i) => JobStep(i, oc, [])
  }

  /** The process of `me` is about to run a step of `Compensate` for order `o`. */
  ghost predicate Compensating(c: Config, s: State, me: Owner, o: OrderId, key: InvKey, cpc: CompPc) {
    match me
    case Call(x) => x == o && o in s.places && s.places[o].pc == Refunding(key, cpc)
    case Worker(i) =>
      && i < |s.jobs|
      && match s.jobs[i]
         case Timeout(x, pc, _) => x == o && pc == Restock(key, cpc)
         case Dlq(ev, pc) => ev.order == o && DlqKey(c, ev) == key && pc == cpc
         case _ => false
  }

  /** It has gone on to the other step of `Compensate`, or past it. */
  ghost predicate HasCompensated(s: State, s': State, me: Owner, cpc: Option<CompPc>) {
    match me
    case Call(o) =>
      && o in s.places && o in s'.places && s.places[o].pc.Refunding?
      && s'.places[o] == s.places[o].(pc := if cpc.Some? then Refunding(s.places[o].pc.key, cpc.value) else Errored)
    case Worker(i) =>
      && i < |s.jobs| && i < |s'.jobs|
      && match s.jobs[i]
         case Timeout(x, Restock(key, _), rest) =>
           s'.jobs[i] == Timeout(x, if cpc.Some? then Restock(key, cpc.value) else Announce, rest)
         case Dlq(ev, _) => s'.jobs[i] == if cpc.Some? then Dlq(ev, cpc.value) else Finished
         case _ => false
  }

  /** The table has no row for the event and takes none. */
  ghost predicate Refuses(c: Config, rows: map<OrderId, Row>, ev: Event) { ev.order !in rows && !Fits(c, rows, ev) }

  /** What INSERT ... ON CONFLICT DO NOTHING makes of the table, and what it replies. */
  ghost predicate IsInserted(c: Config, rows: map<OrderId, Row>, rows': map<OrderId, Row>, ev: Event, expires: int, now: int,
                             reply: Option<Inserted>, a: Action) {
    && a.JobStep?
    && rows' == (if a.oc.TookEffect() && ev.order !in rows && Fits(c, rows, ev)
                 then rows[ev.order := Row(ev.user, ev.event, ev.sku, ev.qty, Pending, expires, now, 1)] else rows)
    && (reply.Some? <==> a.oc == Ok && (ev.order in rows || Fits(c, rows, ev)))
    && (reply.Some? ==> reply.value == if ev.order in rows then RowExists else NewRow)
  }

  /** At some point of the run between the two, the table refused the event. */
  ghost predicate RefusedBetween(c: Config, init: State, before: seq<Action>, after: seq<Action>, ev: Event) {
    exists here :: before <= here <= after && Refuses(c, Run(c, init, here).rows, ev)
  }

  lemma RefusedAt(c: Config, init: State, before: seq<Action>, here: seq<Action>, after: seq<Action>, rows: map<OrderId, Row>, ev: Event)
    requires before <= here <= after && rows == Run(c, init, here).rows && Refuses(c, rows, ev)
    ensures RefusedBetween(c, init, before, after, ev)
  {
  }

  /** The stores after one step of `Compensate`, whoever runs it. */
  ghost predicate CompensatesStores(s: State, s': State, o: OrderId, key: InvKey, cpc: CompPc, oc: Outcome) {
    var hit := oc.TookEffect() && cpc.Release? && Holds(s.cells, s.now, o);
    s' == s.(
      stock := if hit then Add(s.stock, key, 1) else s.stock,
      cells := if hit then s.cells[o := Cell.Compensated] else s.cells,
      soldOut := if oc.TookEffect() && cpc.Unlatch? && key.sku != "" then s.soldOut - {key.sku} else s.soldOut,
      places := s'.places, jobs := s'.jobs, hist := s'.hist)
  }

  lemma CallCompensates(c: Config, s: State, o: OrderId, key: InvKey, cpc: CompPc, oc: Outcome, s': State)
    requires o in s.places && s.places[o].pc == Refunding(key, cpc) && s' == StepOfPlace(c, s, o, oc)
    ensures CompensatesStores(s, s', o, key, cpc, oc)
    ensures HasCompensated(s, s', Call(o), if GoesOnToUnlatch(s, o, cpc, oc) then Some(Unlatch) else None)
  {
  }

  lemma TimeoutCompensates(c: Config, s: State, i: nat, o: OrderId, key: InvKey, cpc: CompPc, oc: Outcome, s': State)
    requires i < |s.jobs| && s.jobs[i].Timeout? && s.jobs[i].order == o && s.jobs[i].tpc == Restock(key, cpc)
    requires s' == TimeoutStep(c, s, i, oc)
    ensures CompensatesStores(s, s', o, key, cpc, oc)
    ensures HasCompensated(s, s', Worker(i), if GoesOnToUnlatch(s, o, cpc, oc) then Some(Unlatch) else None)
  {
  }

  lemma DlqCompensates(c: Config, s: State, i: nat, o: OrderId, key: InvKey, cpc: CompPc, oc: Outcome, s': State)
    requires i < |s.jobs| && s.jobs[i].Dlq? && s.jobs[i].ev.order == o && s.jobs[i].dpc == cpc
    requires DlqKey(c, s.jobs[i].ev) == key && s' == StepOfJob(c, s, i, oc, [])
    ensures CompensatesStores(s, s', o, key, cpc, oc)
    ensures HasCompensated(s, s', Worker(i), if GoesOnToUnlatch(s, o, cpc, oc) then Some(Unlatch) else None)
  {
  }

  lemma CompensatingStep(c: Config, s: State, me: Owner, o: OrderId, key: InvKey, cpc: CompPc, oc: Outcome, s': State)
    requires Compensating(c, s, me, o, key, cpc) && s' == Apply(c, s, StepFor(me, oc))
    ensures CompensatesStores(s, s', o, key, cpc, oc)
    ensures HasCompensated(s, s', me, if GoesOnToUnlatch(s, o, cpc, oc) then Some(Unlatch) else None)
  {
    match me
    case Call(x) => CallCompensates(c, s, o, key, cpc, oc, s');
    case Worker(i) =>
      if s.jobs[i].Dlq? {
        DlqCompensates(c, s, i, o, key, cpc, oc, s');
      } else {
        TimeoutCompensates(c, s, i, o, key, cpc, oc, s');
      }
  }

  /** Whoever refunds an order, its call of `Place` is past the write of RESERVED. */
  lemma CompensatesPlaced(c: Config, s: State, me: Owner, o: OrderId, key: InvKey, cpc: CompPc)
    requires Inv(c, s) && Compensating(c, s, me, o, key, cpc)
    ensures o in s.places && !Early(s.places[o].pc)
  {
    assert OrderInv(c, s, o);
    var r := Look(s, o);
    if me.Worker? {
      JobKnows(c, s, me.job);
      assert r.event.Some?;
    }
    assert r.place.Some? && r.place.value == s.places[o];
  }

  /** A unit that is not held stays so. */
  lemma SettledOnwards(c: Config, s0: State, acts: seq<Action>, more: seq<Action>, o: OrderId)
    requires Start(s0) && Settled(Run(c, s0, acts), o)
    ensures var s := Run(c, s0, acts + more); !Holds(s.cells, s.now, o)
  {
    StartInv(c, s0);
    RunKeeps(c, s0, acts);
    SettledForever(c, Run(c, s0, acts), more, o);
    RunConcat(c, s0, acts, more);
  }

  lemma CancelledOnwards(c: Config, s0: State, acts: seq<Action>, more: seq<Action>, o: OrderId)
    requires Start(s0) && var s := Run(c, s0, acts); o in s.rows && s.rows[o].status == Cancelled
    ensures !Due(Run(c, s0, acts + more), o)
  {
    StartInv(c, s0);
    RunKeeps(c, s0, acts);
    RowForever(c, Run(c, s0, acts), more, o);
    RunConcat(c, s0, acts, more);
  }

  /** Rows and published cells stay. */
  lemma {:induction false} HandledForever(c: Config, s: State, more: seq<Action>, o: OrderId)
    requires Inv(c, s) && o in s.rows && Find(s.cells, o) == Some(Published)
    ensures var t := Run(c, s, more); o in t.rows && Find(t.cells, o) == Some(Published)
  {
    if more != [] {
      var before := more[..|more| - 1];
      HandledForever(c, s, before, o);
      RunKeeps(c, s, before);
      HandledStep(c, Run(c, s, before), more[|more| - 1], o, Run(c, s, more));
    }
  }

  lemma HandledOnwards(c: Config, s0: State, acts: seq<Action>, more: seq<Action>, o: OrderId)
    requires Start(s0) && var s := Run(c, s0, acts); o in s.rows && Find(s.cells, o) == Some(Published)
    ensures var s := Run(c, s0, acts + more); o in s.rows && Find(s.cells, o) == Some(Published)
  {
    StartInv(c, s0);
    RunKeeps(c, s0, acts);
    HandledForever(c, Run(c, s0, acts), more, o);
    RunConcat(c, s0, acts, more);
  }

  lemma HandledStep(c: Config, s: State, a: Action, o: OrderId, s': State)
    requires Inv(c, s) && o in s.rows && Find(s.cells, o) == Some(Published) && s' == Apply(c, s, a)
    ensures o in s'.rows && Find(s'.cells, o) == Some(Published)
  {
    StepKeeps(c, s, a, s');
    assert OrderInv(c, s, o);
    assert Evolves(s.now, Look(s, o), Look(s', o));
    assert Look(s, o).row.Some? && Look(s', o).row.Some?;
  }

  /** `page` lists, oldest first, the orders of `all` that are not in `due` any more. */
  ghost predicate Listed(rows: map<OrderId, Row>, all: set<OrderId>, due: set<OrderId>, page: seq<OrderId>) {
    && due <= all <= rows.Keys
    && (forall o :: o in page <==> o in all && o !in due)
    && (forall k, l :: 0 <= k < l < |page| ==> page[k] != page[l])
    && (forall k, l :: 0 <= k < l < |page| ==> rows[page[k]].created <= rows[page[l]].created)
    && (forall x, o :: x in page && o in due ==> rows[x].created <= rows[o].created)
  }

  lemma ListNext(rows: map<OrderId, Row>, all: set<OrderId>, due: set<OrderId>, page: seq<OrderId>, o: OrderId)
    requires Listed(rows, all, due, page)
    requires o in due && forall x :: x in due ==> rows[o].created <= rows[x].created
    ensures Listed(rows, all, due - {o}, page + [o])
  {
    var more := page + [o];
    forall x
      ensures x in more <==> x in all && x !in due - {o}
    {
      assert x in more <==> x in page || x == o;
    }
    forall k, l | 0 <= k < l < |more|
      ensures more[k] != more[l] && rows[more[k]].created <= rows[more[l]].created
    {
      assert more[k] in page;
    }
  }

  lemma ListDone(s: State, all: set<OrderId>, due: set<OrderId>, page: seq<OrderId>)
    requires Listed(s.rows, all, due, page) && forall o :: o in all <==> Due(s, o)
    requires |page| <= PAGE_LIMIT && (due == {} || |page| == PAGE_LIMIT)
    ensures IsPage(s, page)
  {
    forall o | Due(s, o) && o !in page
      ensures |page| == PAGE_LIMIT && forall k :: 0 <= k < |page| ==> s.rows[page[k]].created <= s.rows[o].created
    {
      assert o in due;
    }
  }

  predicate Overdue(s: State, o: OrderId) { o in s.rows && s.rows[o].expires <= s.now }

  /** Paid or cancelled. */
  predicate Over(s: State, o: OrderId) { o in s.rows && s.rows[o].status != Pending }

  /** At some point of the run between the two, the page was what a fetch returns. */
  ghost predicate FetchedBetween(c: Config, init: State, before: seq<Action>, after: seq<Action>, page: seq<OrderId>) {
    exists here :: before <= here <= after && IsPage(Run(c, init, here), page)
  }

  lemma FetchedAt(c: Config, init: State, before: seq<Action>, here: seq<Action>, s: State, page: seq<OrderId>)
    requires before <= here && s == Run(c, init, here) && IsPage(s, page)
    ensures FetchedBetween(c, init, before, here, page)
  {
    assert here <= here;
  }

  lemma FetchedWithin(c: Config, init: State, before: seq<Action>, from: seq<Action>, to: seq<Action>, after: seq<Action>,
                      page: seq<OrderId>)
    requires FetchedBetween(c, init, from, to, page) && before <= from && to <= after
    ensures FetchedBetween(c, init, before, after, page)
  {
    var here :| from <= here <= to && IsPage(Run(c, init, here), page);
    assert before <= here <= after;
  }

  /** Every order of the page is overdue, and those already done are over. */
  ghost predicate PageSoFar(s: State, page: seq<OrderId>, results: seq<TimeoutResult>) {
    && (forall x :: x in page ==> Overdue(s, x))
    && |results| <= |page| && forall k | 0 <= k < |results| && results[k].Done? :: Over(s, page[k])
  }

  lemma PageAdds(s: State, page: seq<OrderId>, results: seq<TimeoutResult>, r: TimeoutResult)
    requires PageSoFar(s, page, results) && |results| < |page| && (r.Done? ==> !Due(s, page[|results|]))
    ensures PageSoFar(s, page, results + [r])
    ensures CountDone(results + [r]) == CountDone(results) + if r.Done? then 1 else 0
  {
    assert page[|results|] in page;
    assert (results + [r])[..|results|] == results;
  }

  function CountDone(results: seq<TimeoutResult>): nat {
    if results == [] then 0
    else CountDone(results[..|results| - 1]) + if results[|results| - 1].Done? then 1 else 0
  }

  class Cluster {
    const c: Config

    // Redis
    var stock: Stock
    var soldOut: set<Sku>
    var cells: Cells
    var guards: map<OrderId, int>
    var leader: int
    // Postgres
    var rows: map<OrderId, Row>
    // JetStream
    var stream: map<OrderId, Event>
    var timers: set<Timer>
    var now: int

    // program counters, bookkeeping and the run so far
    ghost var places: map<OrderId, Place>
    ghost var jobs: seq<Job>
    ghost var hist: History
    ghost const init: State
    ghost var trace: seq<Action>

    ghost function View(): State
      reads this
    {
      State(stock, soldOut, cells, guards, leader, rows, stream, timers, places, jobs, now, hist)
    }

    ghost predicate Valid()
      reads this
    {
      Start(init) && View() == Run(c, init, trace)
    }

    constructor (c: Config, stock: Stock, soldOut: set<Sku>, leader: int, now: int)
      requires NonNegative(stock)
      ensures Valid() && this.c == c && trace == []
      ensures this.stock == stock && this.soldOut == soldOut && this.now == now
    {
      this.c := c;
      this.stock, this.soldOut, this.leader, this.now := stock, soldOut, leader, now;
      cells, guards, rows, stream, timers := map[], map[], map[], map[], {};
      places, jobs, trace := map[], [], [];
      hist := History(map[], multiset{}, multiset{}, multiset{}, map[], map[], multiset{}, map[], multiset{}, {}, {});
      init := State(stock, soldOut, map[], map[], leader, map[], map[], {}, map[], [], now,
                    History(map[], multiset{}, multiset{}, multiset{}, map[], map[], multiset{}, map[], multiset{}, {}, {}));
    }

    /** Any other processes take any number of steps. */
    method Interfere(ghost me: Owner)
      requires Valid()
      modifies this
      ensures Valid()
      ensures old(trace) <= trace && forall k | |old(trace)| <= k < |trace| :: !Mine(me, trace[k])
    {
    }

    method Yield(ghost me: Owner)
      requires Valid() && Untouched(me, View(), View())
      modifies this
      ensures Valid() && Waited(me, old(trace), trace) && Untouched(me, old(View()), View())
    {
      ghost var acts := trace;
      Interfere(me);
      ghost var others := trace[|acts|..];
      assert trace == acts + others;
      OthersLeaveAlone(c, init, acts, others, me);
    }

    /** The shared stores are those of `s`. */
    ghost predicate StoresAre(s: State)
      reads this
    {
      && stock == s.stock && soldOut == s.soldOut && cells == s.cells && guards == s.guards && leader == s.leader
      && rows == s.rows && stream == s.stream && timers == s.timers && now == s.now
    }

    ghost method Adopt(next: State)
      requires StoresAre(next)
      modifies `places, `jobs, `hist
      ensures View() == next
    {
      places, jobs, hist := next.places, next.jobs, next.hist;
    }

    /** Adopts the bookkeeping of a step whose effect on the stores has been carried out. */
    ghost method Took(a: Action, before: State)
      requires Start(init) && before == Run(c, init, trace) && StoresAre(Apply(c, before, a))
      modifies `places, `jobs, `hist, `trace
      ensures Valid() && trace == old(trace) + [a] && View() == Apply(c, before, a)
    {
      RunAppend(c, init, trace, a);
      Adopt(Apply(c, before, a));
      trace := trace + [a];
    }

    /** The one command of this process since the run `from`. */
    ghost method Made(me: Owner, a: Action, before: State, from: seq<Action>)
      requires Start(init) && before == Run(c, init, trace) && StoresAre(Apply(c, before, a))
      requires Waited(me, from, trace) && Mine(me, a)
      modifies `places, `jobs, `hist, `trace
      ensures Valid() && trace == old(trace) + [a] && View() == Apply(c, before, a)
      ensures from <= trace && (SawError(me, from, trace) <==> Fails(a))
    {
      LastCommand(me, from, trace, a);
      Took(a, before);
    }

    /** Whatever the services have done so far, live orders and shelf stock stay within the
        seeded stock plus the doubled orders, and units are conserved. */
    lemma NeverOversells(sku: Sku)
      requires Valid()
      ensures |Live(View(), sku)| + Total(stock, sku, c.shards) <= Total(init.stock, sku, c.shards) + |Doubled(View(), sku)|
      ensures Total(stock, sku, c.shards) + |Held(View(), sku)| + hist.lost[sku] == Total(init.stock, sku, c.shards)
    {
      NoOversell(c, init, trace, sku, View());
      Conservation(c, init, trace, sku, View());
    }

    // ---- ShardRouter

    /** isSoldOut: EXISTS soldout:<sku>; an error reads as "not sold out". */
    method IsSoldOut(ghost o: OrderId, sku: Sku) returns (sold: bool)
      requires Valid() && o in places && places[o].pc == CheckLatch && places[o].sku == sku
      modifies this
      ensures Valid() && old(trace) <= trace
      ensures if sold then sku in soldOut else sku !in soldOut || SawError(Call(o), old(trace), trace)
      ensures o in places && places[o] == old(places[o]).(pc := if sold then SoldOut else Sweep(0))
    {
      Yield(Call(o));
      var oc: Outcome := *;
      sold := oc.Ok? && sku in soldOut;
      Made(Call(o), PlaceStep(o, oc), View(), old(trace));
    }

    /** One run of reserve_stock.lua: DECR, and INCR again when that went below zero. */
    method RunReserveScript(ghost o: OrderId, ghost offset: nat, key: InvKey) returns (reply: Reply<bool>)
      requires Valid() && o in places && places[o].pc == Sweep(offset)
      requires key == Probe(places[o].sku, Home(c, places[o].user), offset, c.shards)
      modifies this
      ensures Valid() && old(trace) <= trace
      ensures reply.NoAnswer? <==> SawError(Call(o), old(trace), trace)
      ensures reply == Answer(false) ==> At(stock, key) <= 0
      ensures o in places && places[o] == old(places[o]).(pc :=
        if reply == Answer(true) then Mark(key) else if reply == NoAnswer(true) then SoldOut else AfterProbe(c, offset))
    {
      Yield(Call(o));
      var oc: Outcome := *;
      ghost var before := View();
      var ok := false;
      if oc.TookEffect() {
        stock := Add(stock, key, -1);
        ok := stock[key] >= 0;
        if !ok {
          stock := Add(stock, key, 1);
        }
      }
      Made(Call(o), PlaceStep(o, oc), before, old(trace));
      reply := if oc.Ok? then Answer(ok) else NoAnswer(oc.Open?);
    }

    method LatchSoldOut(ghost o: OrderId, sku: Sku)
      requires Valid() && o in places && places[o].pc == Latch && places[o].sku == sku
      modifies this
      ensures Valid() && old(trace) <= trace
      ensures sku in soldOut || SawError(Call(o), old(trace), trace)
      ensures o in places && places[o] == old(places[o]).(pc := SoldOut)
    {
      Yield(Call(o));
      var oc: Outcome := *;
      ghost var before := View();
      if oc.TookEffect() {
        soldOut := soldOut + {sku};
      }
      Made(Call(o), PlaceStep(o, oc), before, old(trace));
    }

    /** Decrements one live shard, probing siblings on exhaustion or on an error. */
    method Reserve(ghost o: OrderId, sku: Sku, user: UserId) returns (key: Option<InvKey>)
      requires Valid() && o in places && places[o].pc == CheckLatch && places[o].sku == sku && places[o].user == user
      modifies this
      ensures Valid() && old(trace) <= trace
      ensures key.None? ==> sku in soldOut || SawError(Call(o), old(trace), trace)
      ensures o in places && places[o] == old(places[o]).(pc := if key.Some? then Mark(key.value) else SoldOut)
    {
      var home := Home(c, user);
      var sold := IsSoldOut(o, sku);
      if sold {
        return None;
      }
      var offset := 0;
      while offset < c.shards
        invariant offset <= c.shards
        invariant Valid() && old(trace) <= trace
        invariant o in places &&
          places[o] == old(places[o]).(pc := if offset < c.shards then Sweep(offset) else Latch)
      {
        var k := Probe(sku, home, offset, c.shards);
        ghost var at := trace;
        var reply := RunReserveScript(o, offset, k);
        match reply {
          case Answer(ok) => if ok { return Some(k); }
          case NoAnswer(open) =>
            ErrorsStay(Call(o), at, trace, old(trace), trace);
            if open { return None; }
        }
        offset := offset + 1;
      }
      ghost var at := trace;
      LatchSoldOut(o, sku);
      if sku !in soldOut { ErrorsStay(Call(o), at, trace, old(trace), trace); }
      key := None;
    }

    // ---- Compensate, shared by Place, ProcessTimeout and HandleDLQMsg

    /** One run of release_stock.lua; `None` when the caller saw an error. */
    method RunReleaseScript(ghost me: Owner, o: OrderId, key: InvKey) returns (restored: Option<bool>)
      requires Valid() && Compensating(c, View(), me, o, key, Release)
      modifies this
      ensures Valid() && old(trace) <= trace
      ensures restored.None? <==> SawError(me, old(trace), trace)
      ensures HasCompensated(old(View()), View(), me, if restored == Some(true) then Some(Unlatch) else None)
      ensures restored.Some? ==> !Holds(cells, now, o)
    {
      Yield(me);
      var oc: Outcome := *;
      ghost var before := View();
      var held := Holds(cells, now, o);
      if oc.TookEffect() && held {
        stock := Add(stock, key, 1);
        cells := cells[o := Cell.Compensated];
      }
      CompensatingStep(c, before, me, o, key, Release, oc, Apply(c, before, StepFor(me, oc)));
      Made(me, StepFor(me, oc), before, old(trace));
      restored := if oc.Ok? then Some(held) else None;
    }

    method DeleteLatch(ghost me: Owner, ghost o: OrderId, key: InvKey)
      requires Valid() && Compensating(c, View(), me, o, key, Unlatch)
      modifies this
      ensures Valid() && old(trace) <= trace
      ensures HasCompensated(old(View()), View(), me, None)
    {
      Yield(me);
      var oc: Outcome := *;
      ghost var before := View();
      if oc.TookEffect() && key.sku != "" {
        soldOut := soldOut - {key.sku};
      }
      CompensatingStep(c, before, me, o, key, Unlatch, oc, Apply(c, before, StepFor(me, oc)));
      Made(me, StepFor(me, oc), before, old(trace));
    }

    /** Restores stock guarded by the reservation cell; reports whether it saw an error. */
    method Compensate(ghost me: Owner, o: OrderId, key: InvKey) returns (err: bool)
      requires Valid() && Compensating(c, View(), me, o, key, Release)
      modifies this
      ensures Valid() && old(trace) <= trace
      ensures err ==> SawError(me, old(trace), trace)
      ensures HasCompensated(old(View()), View(), me, None)
      ensures !err ==> !Holds(cells, now, o)
    {
      var restored := RunReleaseScript(me, o, key);
      if restored == Some(true) {
        ghost var acts := trace;
        StartInv(c, init);
        RunKeeps(c, init, trace);
        CompensatesPlaced(c, View(), me, o, key, Unlatch);
        DeleteLatch(me, o, key);
        assert trace == acts + trace[|acts|..];
        SettledOnwards(c, init, acts, trace[|acts|..], o);
      }
      err := restored.None?;
    }

    // ---- Service.Place

    /** The step of SetReserved, whose effect on the cells has been carried out. */
    ghost method TookMark(o: OrderId, key: InvKey, oc: Outcome, before: State, from: seq<Action>)
      requires Start(init) && before == Run(c, init, trace) && Waited(Call(o), from, trace)
      requires o in before.places && before.places[o].pc == Mark(key)
      requires StoresAre(before.(
        cells := if oc.TookEffect() then before.cells[o := Reserved(before.now + c.reservationTTL)] else before.cells))
      modifies `places, `jobs, `hist, `trace
      ensures Valid() && from <= trace && (SawError(Call(o), from, trace) <==> oc != Ok)
      ensures o in places
      ensures places[o] == before.places[o].(pc := if oc == Ok then Publish(key, 0) else Refunding(key, Release))
    {
      ghost var next := Apply(c, before, PlaceStep(o, oc));
      Calls.MarkIs(c, before, o, key, oc, next);
      Made(Call(o), PlaceStep(o, oc), before, from);
    }

    method SetReserved(o: OrderId, ghost key: InvKey) returns (err: bool)
      requires Valid() && o in places && places[o].pc == Mark(key)
      modifies this
      ensures Valid() && old(trace) <= trace
      ensures err <==> SawError(Call(o), old(trace), trace)
      ensures o in places && places[o] == old(places[o]).(pc := if err then Refunding(key, Release) else Publish(key, 0))
    {
      Yield(Call(o));
      var oc: Outcome := *;
      assert places[o] == old(places[o]);
      ghost var before := View();
      if oc.TookEffect() {
        cells := cells[o := Reserved(now + c.reservationTTL)];
      }
      assert cells == if oc.TookEffect() then before.cells[o := Reserved(before.now + c.reservationTTL)] else before.cells;
      TookMark(o, key, oc, before, old(trace));
      err := !oc.Ok?;
    }

    /** One js.Publish on orders.created; `Answer(false)` is an error or a missing ack. */
    method PublishCreated(o: OrderId, ev: Event, ghost key: InvKey, ghost attempt: nat) returns (reply: Reply<bool>)
      requires Valid() && o in places && places[o].pc == Publish(key, attempt) && ev == EventOf(View(), o, key)
      modifies this
      ensures Valid() && old(trace) <= trace
      ensures reply != Answer(true) <==> SawError(Call(o), old(trace), trace)
      ensures o in places && places[o] == old(places[o]).(pc :=
        match reply
        case Answer(acked) => if acked then Placed else AfterAttempt(key, attempt)
        case NoAnswer(_) => Refunding(key, Release))
    {
      Yield(Call(o));
      var oc: Outcome := *;
      ghost var before := View();
      if oc.TookEffect() {
        stream := stream[o := ev];
      }
      Made(Call(o), PlaceStep(o, oc), before, old(trace));
      reply := if oc.Open? then NoAnswer(true) else Answer(oc.Ok?);
    }

    /** Up to three attempts; an open breaker or a cancelled context ends it at once. */
    method PublishWithRetry(o: OrderId, ev: Event, ghost key: InvKey) returns (err: bool)
      requires Valid() && o in places && places[o].pc == Publish(key, 0) && ev == EventOf(View(), o, key)
      modifies this
      ensures Valid() && old(trace) <= trace
      ensures err ==> SawError(Call(o), old(trace), trace)
      ensures o in places && places[o] == old(places[o]).(pc := if err then Refunding(key, Release) else Placed)
    {
      for attempt := 0 to PUBLISH_ATTEMPTS
        invariant Valid() && old(trace) <= trace && (attempt > 0 ==> SawError(Call(o), old(trace), trace))
        invariant o in places && places[o] == old(places[o]).(pc :=
          if attempt < PUBLISH_ATTEMPTS then Publish(key, attempt) else Refunding(key, Release))
      {
        ghost var at := trace;
        var reply := PublishCreated(o, ev, key, attempt);
        if reply != Answer(true) { ErrorsStay(Call(o), at, trace, old(trace), trace); }
        match reply {
          case Answer(acked) => if acked { return false; }
          case NoAnswer(_) => return true;
        }
      }
      err := true;
    }

    /** Place, under the fresh id that genOrderID returned. */
    method Place(id: OrderId, user: UserId, event: string, sku: Sku, qty: int) returns (r: PlaceResult)
      requires Valid() && id !in places
      modifies this
      ensures Valid() && old(trace) + [Begin(id, user, event, sku, qty)] <= trace
      ensures id in places && places[id] == OrderModel.Place(user, event, sku, if qty <= 0 then 1 else qty, ResultPc(r))
      ensures r.ErrSoldOut? ==> sku in soldOut || SawError(Call(id), old(trace), trace)
      ensures r.ErrOther? ==> SawError(Call(id), old(trace), trace)
      ensures r.OrderId? ==> r.id == id && id in stream && stream[id].user == user && stream[id].sku == sku
      ensures r.ErrSoldOut? ==> id !in cells && id !in stream && id !in hist.wins
    {
      Took(Begin(id, user, event, sku, qty), View());
      ghost var begun := trace;
      r := PlaceBegun(id, user, event, sku, if qty <= 0 then 1 else qty);
      if SawError(Call(id), begun, trace) { ErrorsStay(Call(id), begun, trace, old(trace), trace); }
      StartInv(c, init);
      RunKeeps(c, init, trace);
      assert OrderInv(c, View(), id);
      assert PlaceInv(c, Look(View(), id));
    }

    method PlaceBegun(id: OrderId, user: UserId, event: string, sku: Sku, qty: int) returns (r: PlaceResult)
      requires Valid() && id in places && places[id] == OrderModel.Place(user, event, sku, qty, CheckLatch)
      modifies this
      ensures Valid() && old(trace) <= trace
      ensures r.ErrSoldOut? ==> sku in soldOut || SawError(Call(id), old(trace), trace)
      ensures r.ErrOther? ==> SawError(Call(id), old(trace), trace)
      ensures id in places && places[id] == old(places[id]).(pc := ResultPc(r))
      ensures r.OrderId? ==> r.id == id
    {
      var reserved := Reserve(id, sku, user);
      if reserved.None? {
        return ErrSoldOut;
      }
      var key := reserved.value;
      ghost var at := trace;
      var err := SetReserved(id, key);
      if err {
        ghost var failed := trace;
        var _ := Compensate(Call(id), id, key);
        ErrorsStay(Call(id), at, failed, old(trace), trace);
        return ErrOther;
      }
      at := trace;
      err := PublishWithRetry(id, Event(id, user, event, sku, qty, Some(key)), key);
      if err {
        ghost var failed := trace;
        var _ := Compensate(Call(id), id, key);
        ErrorsStay(Call(id), at, failed, old(trace), trace);
        return ErrOther;
      }
      r := OrderId(id);
    }

    // ---- handleOrder

    ghost predicate AtJob(i: nat, job: Job)
      reads this
    {
      i < |jobs| && jobs[i] == job
    }

    /** InsertOrder; `None` is an error, which a violated constraint also is. */
    method InsertOrder(ghost i: nat, ev: Event, expires: int) returns (reply: Option<Inserted>)
      requires Valid() && AtJob(i, Handle(ev, expires, Insert))
      modifies this
      ensures Valid() && old(trace) <= trace
      ensures reply.Some? ==> reply.value in {NewRow, RowExists} && ev.order in rows
      ensures reply == Some(NewRow) ==>
        rows[ev.order] == Row(ev.user, ev.event, ev.sku, ev.qty, Pending, expires, now, 1)
      ensures trace != [] && old(trace) <= trace[..|trace| - 1]
      ensures IsInserted(c, Run(c, init, trace[..|trace| - 1]).rows, rows, ev, expires, now, reply, trace[|trace| - 1])
      ensures reply.None? ==>
        SawError(Worker(i), old(trace), trace) || Refuses(c, Run(c, init, trace[..|trace| - 1]).rows, ev)
      ensures AtJob(i, if reply.Some? then Handle(ev, expires, Flip) else Finished)
    {
      Yield(Worker(i));
      var oc: Outcome := *;
      ghost var before := View();
      var inserted := RowExists;
      if ev.order !in rows {
        var taken := exists o :: o in rows && rows[o].user == ev.user && rows[o].event == ev.event;
        if ev.user !in c.users || ev.sku !in c.products || taken {
          inserted := Rejected;
        } else {
          inserted := NewRow;
          if oc.TookEffect() {
            rows := rows[ev.order := Row(ev.user, ev.event, ev.sku, ev.qty, Pending, expires, now, 1)];
          }
        }
      }
      ghost var acts := trace;
      InsertsIff(c, before, i, ev, expires, oc, Apply(c, before, JobStep(i, oc, [])));
      Made(Worker(i), JobStep(i, oc, []), before, old(trace));
      assert trace[..|trace| - 1] == acts;
      reply := if oc.Ok? && !inserted.Rejected? then Some(inserted) else None;
    }

    /** Flips the reservation to PUBLISHED, whatever it holds. */
    method SetPublished(ghost i: nat, ev: Event, ghost expires: int) returns (err: bool)
      requires Valid() && AtJob(i, Handle(ev, expires, Flip))
      modifies this
      ensures Valid() && old(trace) <= trace
      ensures err <==> SawError(Worker(i), old(trace), trace)
      ensures AtJob(i, if err then Finished else Handle(ev, expires, Arm(0)))
    {
      Yield(Worker(i));
      var oc: Outcome := *;
      ghost var before := View();
      if oc.TookEffect() {
        cells := cells[ev.order := Published];
      }
      Made(Worker(i), JobStep(i, oc, []), before, old(trace));
      err := !oc.Ok?;
    }

    method PublishSchedule(ghost i: nat, ev: Event, expires: int, ghost attempt: nat) returns (reply: Reply<bool>)
      requires Valid() && AtJob(i, Handle(ev, expires, Arm(attempt)))
      modifies this
      ensures Valid() && old(trace) <= trace
      ensures reply != Answer(true) <==> SawError(Worker(i), old(trace), trace)
      ensures AtJob(i, if reply == Answer(false) && attempt + 1 < PUBLISH_ATTEMPTS
                      then Handle(ev, expires, Arm(attempt + 1)) else Finished)
      ensures reply == Answer(true) ==> Timer(ev.order, WholeSeconds(expires)) in timers
    {
      Yield(Worker(i));
      var oc: Outcome := *;
      ghost var before := View();
      if oc.TookEffect() {
        timers := timers + {Timer(ev.order, WholeSeconds(expires))};
      }
      ArmIs(c, before, i, ev, expires, attempt, oc, Apply(c, before, JobStep(i, oc, [])));
      Made(Worker(i), JobStep(i, oc, []), before, old(trace));
      reply := if oc.Open? then NoAnswer(true) else Answer(oc.Ok?);
    }

    method ArmTimeout(ghost i: nat, ev: Event, deadline: int) returns (err: bool)
      requires Valid() && AtJob(i, Handle(ev, deadline, Arm(0)))
      modifies this
      ensures Valid() && old(trace) <= trace && AtJob(i, Finished)
      ensures err ==> SawError(Worker(i), old(trace), trace)
      ensures !err ==> Timer(ev.order, WholeSeconds(deadline)) in timers
    {
      for attempt := 0 to PUBLISH_ATTEMPTS
        invariant Valid() && old(trace) <= trace && (attempt > 0 ==> SawError(Worker(i), old(trace), trace))
        invariant AtJob(i, if attempt < PUBLISH_ATTEMPTS then Handle(ev, deadline, Arm(attempt)) else Finished)
      {
        ghost var at := trace;
        var reply := PublishSchedule(i, ev, deadline, attempt);
        if reply != Answer(true) { ErrorsStay(Worker(i), at, trace, old(trace), trace); }
        match reply {
          case Answer(acked) => if acked { return false; }
          case NoAnswer(_) => return true;
        }
      }
      err := true;
    }

    /** One delivery of a stored orders.created message; `acked` is false for a Nak. An
        acknowledged delivery leaves the row in the table and a published cell. */
    method HandleOrder(o: OrderId) returns (acked: bool)
      requires Valid() && o in stream
      modifies this
      ensures Valid() && old(trace) + [Deliver(o)] <= trace
      ensures AtJob(|old(jobs)|, Finished)
      ensures !acked ==>
        SawError(Worker(|old(jobs)|), old(trace), trace) || RefusedBetween(c, init, old(trace), trace, old(stream)[o])
      ensures acked ==> o in rows && Find(cells, o) == Some(Published)
    {
      ghost var i := |jobs|;
      var ev, expires := stream[o], now + c.paymentWindow;
      StoredEventNamesItsOrder(ev, o);
      Took(Deliver(o), View());
      ghost var at := trace;
      var inserted := InsertOrder(i, ev, expires);
      if inserted.None? {
        if SawError(Worker(i), at, trace) {
          ErrorsStay(Worker(i), at, trace, old(trace), trace);
        } else {
          RefusedAt(c, init, old(trace), trace[..|trace| - 1], trace, Run(c, init, trace[..|trace| - 1]).rows, ev);
        }
        return false;
      }
      at := trace;
      acked := FlipAndArm(i, ev, expires);
      if !acked { ErrorsStay(Worker(i), at, trace, old(trace), trace); }
    }

    /** The rest of a delivery: whether the schedule is armed does not matter for the reply. */
    method FlipAndArm(ghost i: nat, ev: Event, expires: int) returns (acked: bool)
      requires Valid() && AtJob(i, Handle(ev, expires, Flip))
      modifies this
      ensures Valid() && old(trace) <= trace && AtJob(i, Finished)
      ensures !acked ==> SawError(Worker(i), old(trace), trace)
      ensures acked ==> ev.order in rows && Find(cells, ev.order) == Some(Published)
    {
      var err := SetPublished(i, ev, expires);
      if err {
        return false;
      }
      ArmedHandleIsDone(i, ev, expires);
      ghost var acts := trace;
      var _ := ArmTimeout(i, ev, expires);
      acked := true;
      assert trace == acts + trace[|acts|..];
      HandledOnwards(c, init, acts, trace[|acts|..], ev.order);
    }

    lemma StoredEventNamesItsOrder(ev: Event, o: OrderId)
      requires Valid() && Find(stream, o) == Some(ev)
      ensures ev.order == o
    {
      StartInv(c, init);
      RunKeeps(c, init, trace);
      assert OrderInv(c, View(), o);
      assert Look(View(), o).event == Some(ev);
    }

    lemma ArmedHandleIsDone(i: nat, ev: Event, expires: int)
      requires Valid() && AtJob(i, Handle(ev, expires, Arm(0)))
      ensures ev.order in rows && Find(cells, ev.order) == Some(Published)
    {
      StartInv(c, init);
      RunKeeps(c, init, trace);
      JobKnows(c, View(), i);
      assert Look(View(), ev.order).row.Some? && Look(View(), ev.order).cell == Some(Published);
    }

    // ---- ProcessTimeout

    /** The step of TakeGuard, whose effect on the guards has been carried out. */
    ghost method TookGuard(i: nat, o: OrderId, rest: seq<OrderId>, oc: Outcome, before: State, from: seq<Action>)
      requires Start(init) && before == Run(c, init, trace) && Waited(Worker(i), from, trace)
      requires i < |before.jobs| && before.jobs[i] == Timeout(o, Guard, rest)
      requires StoresAre(before.(
        guards := if oc.TookEffect() && !Guarded(before, o) then before.guards[o := before.now + GUARD_TTL] else before.guards))
      modifies `places, `jobs, `hist, `trace
      ensures Valid() && from <= trace && (SawError(Worker(i), from, trace) <==> oc != Ok)
      ensures jobs == before.jobs[i := if oc == Ok && !Guarded(before, o) then Timeout(o, Get, rest) else NextTimeout(rest)]
    {
      ghost var next := Apply(c, before, JobStep(i, oc, []));
      GuardIs(c, before, i, o, rest, oc, next);
      Made(Worker(i), JobStep(i, oc, []), before, from);
    }

    /** SETNX cancel:<order> with a day's expiry; `None` is an error. */
    method TakeGuard(ghost i: nat, o: OrderId, ghost rest: seq<OrderId>) returns (taken: Option<bool>)
      requires Valid() && AtJob(i, Timeout(o, Guard, rest))
      modifies this
      ensures Valid() && old(trace) <= trace
      ensures taken.None? <==> SawError(Worker(i), old(trace), trace)
      ensures AtJob(i, if taken == Some(true) then Timeout(o, Get, rest) else NextTimeout(rest))
      ensures taken.Some? ==> Guarded(View(), o)
    {
      Yield(Worker(i));
      var oc: Outcome := *;
      ghost var before := View();
      var free := !(o in guards && now < guards[o]);
      if oc.TookEffect() && free {
        guards := guards[o := now + GUARD_TTL];
      }
      TookGuard(i, o, rest, oc, before, old(trace));
      taken := if oc.Ok? then Some(free) else None;
    }

    /** GetOrder; `Answer(None)` is "no rows". */
    method GetOrder(ghost i: nat, o: OrderId, ghost rest: seq<OrderId>) returns (reply: Reply<Option<Row>>)
      requires Valid() && AtJob(i, Timeout(o, Get, rest))
      modifies this
      ensures Valid() && old(trace) <= trace
      ensures reply.NoAnswer? <==> SawError(Worker(i), old(trace), trace)
      ensures reply.Answer? ==> reply.value == if o in rows then Some(rows[o]) else None
      ensures AtJob(i, match reply
                      case Answer(Some(row)) => Timeout(o, Cancel(row.user, row.sku), rest)
                      case _ => NextTimeout(rest))
    {
      Yield(Worker(i));
      var oc: Outcome := *;
      GetIs(c, View(), i, o, rest, oc, Apply(c, View(), JobStep(i, oc, [])));
      Made(Worker(i), JobStep(i, oc, []), View(), old(trace));
      reply := if oc.Ok? then Answer(if o in rows then Some(rows[o]) else None) else NoAnswer(false);
    }

    /** CancelOrderTimeout; `None` is an error. */
    method CancelOrderTimeout(ghost i: nat, o: OrderId, ghost user: UserId, ghost sku: Sku, ghost rest: seq<OrderId>)
      returns (cancelled: Option<bool>)
      requires Valid() && AtJob(i, Timeout(o, Cancel(user, sku), rest))
      modifies this
      ensures Valid() && old(trace) <= trace
      ensures cancelled.None? <==> SawError(Worker(i), old(trace), trace)
      ensures AtJob(i, if cancelled == Some(true)
                      then Timeout(o, Restock(Shard(sku, Home(c, user)), Release), rest) else NextTimeout(rest))
      ensures cancelled == Some(true) ==> o in rows && rows[o].status == Cancelled
      ensures cancelled == Some(false) ==> !Due(View(), o)
    {
      Yield(Worker(i));
      var oc: Outcome := *;
      ghost var before := View();
      var hit := o in rows && rows[o].status == Pending && rows[o].expires <= now;
      assert hit == Due(before, o);
      if oc.TookEffect() && hit {
        rows := rows[o := rows[o].(status := Cancelled, version := rows[o].version + 1)];
      }
      ghost var next := Apply(c, before, JobStep(i, oc, []));
      CancelIs(c, before, i, o, user, sku, rest, oc, hit, next);
      assert rows == next.rows;
      Made(Worker(i), JobStep(i, oc, []), before, old(trace));
      cancelled := if oc.Ok? then Some(hit) else None;
    }

    /** The publish on orders.cancelled, whose reply is ignored. */
    method PublishCancelled(ghost i: nat, ghost o: OrderId, ghost rest: seq<OrderId>)
      requires Valid() && AtJob(i, Timeout(o, Announce, rest))
      modifies this
      ensures Valid() && old(trace) <= trace
      ensures AtJob(i, NextTimeout(rest))
    {
      Yield(Worker(i));
      var oc: Outcome := *;
      AnnounceIs(c, View(), i, o, rest, oc, Apply(c, View(), JobStep(i, oc, [])));
      Made(Worker(i), JobStep(i, oc, []), View(), old(trace));
    }

    /** After the UPDATE: compensation, whose error is ignored, and the cancelled event. */
    method PutBack(ghost i: nat, o: OrderId, key: InvKey, ghost rest: seq<OrderId>)
      requires Valid() && AtJob(i, Timeout(o, Restock(key, Release), rest))
      requires o in rows && rows[o].status == Cancelled
      modifies this
      ensures Valid() && old(trace) <= trace
      ensures AtJob(i, NextTimeout(rest)) && !Due(View(), o)
    {
      ghost var acts := trace;
      var _ := Compensate(Worker(i), o, key);
      PublishCancelled(i, o, rest);
      assert trace == acts + trace[|acts|..];
      CancelledOnwards(c, init, acts, trace[|acts|..], o);
    }

    /** `Done` leaves nothing due for the order; `ErrDuplicateTimeout` leaves it guarded. */
    method ProcessTimeout(ghost i: nat, o: OrderId, ghost rest: seq<OrderId>) returns (r: TimeoutResult)
      requires Valid() && AtJob(i, Timeout(o, Guard, rest))
      modifies this
      ensures Valid() && old(trace) <= trace
      ensures r.ErrStore? ==> SawError(Worker(i), old(trace), trace)
      ensures AtJob(i, NextTimeout(rest))
      ensures r.Done? ==> !Due(View(), o)
      ensures r.ErrDuplicateTimeout? ==> Guarded(View(), o) && !SawError(Worker(i), old(trace), trace)
    {
      var taken := TakeGuard(i, o, rest);
      if taken.None? {
        return ErrStore;
      }
      if !taken.value {
        return ErrDuplicateTimeout;
      }
      ghost var at := trace;
      var found := GetOrder(i, o, rest);
      if found.NoAnswer? {
        ErrorsStay(Worker(i), at, trace, old(trace), trace);
        return ErrStore;
      }
      if found.value.None? {
        return Done;
      }
      var row := found.value.value;
      at := trace;
      var cancelled := CancelOrderTimeout(i, o, row.user, row.sku, rest);
      if cancelled.None? {
        ErrorsStay(Worker(i), at, trace, old(trace), trace);
        return ErrStore;
      }
      if !cancelled.value {
        return Done;
      }
      PutBack(i, o, Shard(row.sku, Home(c, row.user)), rest);
      r := Done;
    }

    /** One message on orders.timeout: acknowledged unless a store failed. */
    method ConsumeTimeout(t: Timer) returns (acked: bool)
      requires Valid() && t in timers && t.at <= now
      modifies this
      ensures Valid() && old(trace) + [Fire(t)] <= trace
      ensures AtJob(|old(jobs)|, Finished)
      ensures !acked ==> SawError(Worker(|old(jobs)|), old(trace), trace)
      ensures acked ==> !Due(View(), t.order) || Guarded(View(), t.order)
    {
      ghost var i := |jobs|;
      Took(Fire(t), View());
      ghost var at := trace;
      var r := ProcessTimeout(i, t.order, []);
      if r.ErrStore? { ErrorsStay(Worker(i), at, trace, old(trace), trace); }
      acked := !r.ErrStore?;
    }

    // ---- the reconciler

    method TakeLeadership(ghost i: nat) returns (leads: bool)
      requires Valid() && AtJob(i, Lead)
      modifies this
      ensures leads || now < leader || SawError(Worker(i), old(trace), trace)
      ensures Valid() && old(trace) <= trace && AtJob(i, if leads then Fetch else Finished)
    {
      Yield(Worker(i));
      var oc: Outcome := *;
      ghost var before := View();
      var free := leader <= now;
      if oc.TookEffect() && free {
        leader := now + LEADER_TTL;
      }
      LeadIs(c, before, i, oc, Apply(c, before, JobStep(i, oc, [])));
      Made(Worker(i), JobStep(i, oc, []), before, old(trace));
      leads := oc.Ok? && free;
    }

    /** The row of `due` that was created first. */
    method Oldest(due: set<OrderId>) returns (oldest: OrderId)
      requires due != {} && due <= rows.Keys
      ensures oldest in due && forall o :: o in due ==> rows[oldest].created <= rows[o].created
    {
      oldest :| oldest in due;
      var left := due - {oldest};
      while left != {}
        invariant left <= due && oldest in due
        invariant forall o :: o in due && o !in left ==> rows[oldest].created <= rows[o].created
      {
        var o :| o in left;
        if rows[o].created < rows[oldest].created {
          oldest := o;
        }
        left := left - {o};
      }
    }

    /** SELECT ... WHERE status = 'PENDING_PAYMENT' AND expires_at <= NOW()
        ORDER BY created_at LIMIT 100 */
    method SelectExpired() returns (page: seq<OrderId>)
      ensures IsPage(View(), page)
      ensures |page| <= 100
      ensures |page| < 100 ==> forall o | o in rows && rows[o].status == Pending && rows[o].expires <= now :: o in page
      ensures forall o | o in page :: o in rows && rows[o].status == Pending && rows[o].expires <= now
      ensures forall k, l | 0 <= k < l < |page| :: page[k] != page[l] && rows[page[k]].created <= rows[page[l]].created
      ensures forall x, o | x in page && o in rows && rows[o].status == Pending && rows[o].expires <= now && o !in page ::
        rows[x].created <= rows[o].created
    {
      var due := set o | o in rows && rows[o].status == Pending && rows[o].expires <= now;
      ghost var all := due;
      page := [];
      while due != {} && |page| < PAGE_LIMIT
        invariant |page| <= PAGE_LIMIT && Listed(rows, all, due, page)
        decreases due
      {
        var o := Oldest(due);
        ListNext(rows, all, due, page, o);
        page := page + [o];
        due := due - {o};
      }
      ListDone(View(), all, due, page);
    }

    method FetchExpiredOrders(ghost i: nat) returns (reply: Reply<seq<OrderId>>)
      requires Valid() && AtJob(i, Fetch)
      modifies this
      ensures Valid() && old(trace) <= trace
      ensures reply.NoAnswer? <==> SawError(Worker(i), old(trace), trace)
      ensures AtJob(i, if reply.Answer? then NextTimeout(reply.value) else Finished)
      ensures reply.Answer? ==> IsPage(View(), reply.value)
    {
      Yield(Worker(i));
      var oc: Outcome := *;
      var page := SelectExpired();
      FetchIs(c, View(), i, oc, page, Apply(c, View(), JobStep(i, oc, page)));
      Made(Worker(i), JobStep(i, oc, page), View(), old(trace));
      reply := if oc.Ok? then Answer(page) else NoAnswer(false);
    }

    /** The rows of an earlier point of the run, seen from now. */
    lemma RowOnwards(acts: seq<Action>, o: OrderId)
      requires Valid() && acts <= trace && o in Run(c, init, acts).rows
      ensures o in rows && RowLater(Run(c, init, acts).rows[o], rows[o]) && Run(c, init, acts).now <= now
    {
      var more := trace[|acts|..];
      assert trace == acts + more;
      StartInv(c, init);
      RunKeeps(c, init, acts);
      RowForever(c, Run(c, init, acts), more, o);
      RunKeeps(c, Run(c, init, acts), more);
      RunConcat(c, init, acts, more);
    }

    /** An order that was overdue is so for good, and if it was no longer pending, for good. */
    lemma OverdueOnwards(acts: seq<Action>, o: OrderId)
      requires Valid() && acts <= trace && Overdue(Run(c, init, acts), o)
      ensures Overdue(View(), o) && (Over(Run(c, init, acts), o) ==> Over(View(), o))
    {
      RowOnwards(acts, o);
    }

    lemma PageOnwards(acts: seq<Action>, page: seq<OrderId>, results: seq<TimeoutResult>)
      requires Valid() && acts <= trace && PageSoFar(Run(c, init, acts), page, results)
      ensures PageSoFar(View(), page, results)
    {
      forall x | x in page
        ensures Overdue(View(), x) && (Over(Run(c, init, acts), x) ==> Over(View(), x))
      {
        OverdueOnwards(acts, x);
      }
    }

    method Reconcile(ghost i: nat, expired: seq<OrderId>) returns (reconciled: nat, ghost results: seq<TimeoutResult>)
      requires Valid() && AtJob(i, NextTimeout(expired)) && forall x :: x in expired ==> Overdue(View(), x)
      modifies this
      ensures Valid() && old(trace) <= trace && AtJob(i, Finished)
      ensures (exists r :: r in results && r.ErrStore?) ==> SawError(Worker(i), old(trace), trace)
      ensures |results| == |expired| && reconciled == CountDone(results) && PageSoFar(View(), expired, results)
    {
      reconciled, results := 0, [];
      for k := 0 to |expired|
        invariant Valid() && old(trace) <= trace && AtJob(i, NextTimeout(expired[k..]))
        invariant (exists r :: r in results && r.ErrStore?) ==> SawError(Worker(i), old(trace), trace)
        invariant |results| == k && reconciled == CountDone(results) && PageSoFar(View(), expired, results)
      {
        ghost var acts := trace;
        var r := ProcessTimeout(i, expired[k], expired[k + 1..]);
        PageOnwards(acts, expired, results);
        PageAdds(View(), expired, results, r);
        if SawError(Worker(i), old(trace), acts) { ErrorsStay(Worker(i), old(trace), acts, old(trace), trace); }
        if r.ErrStore? { ErrorsStay(Worker(i), acts, trace, old(trace), trace); }
        results := results + [r];
        if r.Done? {
          reconciled := reconciled + 1;
        }
      }
    }

    /** The leader's part of a pass. */
    method ReconcileExpired(ghost i: nat) returns (reconciled: nat, ghost page: seq<OrderId>, ghost results: seq<TimeoutResult>)
      requires Valid() && AtJob(i, Fetch)
      modifies this
      ensures Valid() && old(trace) <= trace && AtJob(i, Finished)
      ensures |results| == |page| <= PAGE_LIMIT && reconciled == CountDone(results) && PageSoFar(View(), page, results)
      ensures FetchedBetween(c, init, old(trace), trace, page) || (page == [] && SawError(Worker(i), old(trace), trace))
      ensures (exists r :: r in results && r.ErrStore?) ==> SawError(Worker(i), old(trace), trace)
    {
      reconciled, page, results := 0, [], [];
      var reply := FetchExpiredOrders(i);
      if reply.Answer? {
        page := reply.value;
        ghost var here := trace;
        FetchedAt(c, init, old(trace), here, View(), page);
        reconciled, results := Reconcile(i, reply.value);
        if SawError(Worker(i), here, trace) { ErrorsStay(Worker(i), here, trace, old(trace), trace); }
        FetchedWithin(c, init, old(trace), old(trace), here, trace, page);
      }
    }

    /** One pass of the reconciler: every order on the page it fetched goes through ProcessTimeout
        once, and those counted as reconciled are paid or cancelled for good. */
    method TickOnce() returns (reconciled: nat, ghost page: seq<OrderId>, ghost results: seq<TimeoutResult>)
      requires Valid()
      modifies this
      ensures Valid() && old(trace) + [Tick] <= trace
      ensures AtJob(|old(jobs)|, Finished)
      ensures |results| == |page| <= PAGE_LIMIT && reconciled == CountDone(results)
      ensures FetchedBetween(c, init, old(trace), trace, page)
              || (page == [] && (now < leader || SawError(Worker(|old(jobs)|), old(trace), trace)))
      ensures (exists r :: r in results && r.ErrStore?) ==> SawError(Worker(|old(jobs)|), old(trace), trace)
      ensures forall k | 0 <= k < |page| && results[k].Done? :: Over(View(), page[k])
    {
      ghost var i := |jobs|;
      Took(Tick, View());
      reconciled, page, results := 0, [], [];
      ghost var begun := trace;
      var leads := TakeLeadership(i);
      if SawError(Worker(i), begun, trace) { ErrorsStay(Worker(i), begun, trace, old(trace), trace); }
      if leads {
        ghost var here := trace;
        reconciled, page, results := ReconcileExpired(i);
        if FetchedBetween(c, init, here, trace, page) { FetchedWithin(c, init, old(trace), here, trace, trace, page); }
        if SawError(Worker(i), here, trace) { ErrorsStay(Worker(i), here, trace, old(trace), trace); }
      }
    }

    // ---- dead letters

    method HandleDLQMsg(o: OrderId) returns (err: bool)
      requires Valid() && o in stream
      modifies this
      ensures Valid() && old(trace) + [DeadLetter(o)] <= trace
      ensures AtJob(|old(jobs)|, Finished)
      ensures err ==> SawError(Worker(|old(jobs)|), old(trace), trace)
      ensures !err ==> !Holds(cells, now, o)
    {
      ghost var i := |jobs|;
      var ev := stream[o];
      StoredEventNamesItsOrder(ev, o);
      Took(DeadLetter(o), View());
      ghost var at := trace;
      err := Compensate(Worker(i), ev.order, DlqKey(c, ev));
      if err { ErrorsStay(Worker(i), at, trace, old(trace), trace); }
    }
  }
}
