/** The shard router and the seeder run without interruption and without Redis errors:
    internal/inventory/router.go and seeder.go. The sharded stock refines one counter. */
module ShardRouter {
  import opened Common
  import opened Inventory

  // ---- the sweep

  datatype Swept = Swept(key: Option<InvKey>, stock: Stock)

  /** The probes from `offset` on, in cyclic order from the home shard. */
  function Sweep(stock: Stock, sku: string, home: nat, n: nat, offset: nat): Swept
    requires n > 0 && offset <= n
    decreases n - offset
  {
    if offset == n then Swept(None, stock)
    else
      var key := Probe(sku, home, offset, n);
      var r := ReserveStock(stock, key);
      if r.ok then Swept(Some(key), r.stock) else Sweep(r.stock, sku, home, n, offset + 1)
  }

  /** The sweep takes one unit from the first non-empty shard in cyclic order from the home
      shard; it finds none exactly when all the shards it reaches are empty. */
  lemma {:induction false} SweepTakesFirst(stock: Stock, sku: string, home: nat, n: nat, offset: nat) returns (d: nat)
    requires n > 0 && offset <= n && NonNegative(stock)
    ensures var r := Sweep(stock, sku, home, n, offset);
      && NonNegative(r.stock)
      && offset <= d <= n
      && (forall e: nat :: offset <= e < d ==> At(stock, Probe(sku, home, e, n)) == 0)
      && (r.key.None? <==> d == n)
      && (d < n ==> r.key == Some(Probe(sku, home, d, n)) && At(stock, Probe(sku, home, d, n)) > 0)
      && (forall k :: At(r.stock, k) == At(stock, k) - (if r.key == Some(k) then 1 else 0))
    decreases n - offset
  {
    d := offset;
    if offset < n {
      var key := Probe(sku, home, offset, n);
      var r := ReserveStock(stock, key);
      ReserveStockTakesOneIfAny(stock, key);
      if !r.ok {
        d := SweepTakesFirst(r.stock, sku, home, n, offset + 1);
      }
    }
  }

  lemma TotalAfter(stock: Stock, stock': Stock, taken: Option<InvKey>, sku: string, n: nat)
    requires forall k :: At(stock', k) == At(stock, k) - (if taken == Some(k) then 1 else 0)
    ensures Total(stock', sku, n) == Total(stock, sku, n) -
      (if taken.Some? && taken.value.Shard? && taken.value.sku == sku && taken.value.index < n then 1 else 0)
  {
    if taken.Some? {
      TotalAdd(stock, sku, n, taken.value, -1);
      TotalSame(Add(stock, taken.value, -1), stock', sku, n);
    } else {
      TotalSame(stock, stock', sku, n);
    }
  }

  /** A full sweep succeeds iff the SKU has any stock, and takes one unit of it. */
  lemma FullSweep(stock: Stock, sku: string, home: nat, n: nat)
    requires n > 0 && NonNegative(stock)
    ensures var r := Sweep(stock, sku, home, n, 0);
      && NonNegative(r.stock)
      && (r.key.Some? <==> Total(stock, sku, n) > 0)
      && Total(r.stock, sku, n) == Total(stock, sku, n) - (if r.key.Some? then 1 else 0)
      && forall other :: other != sku ==> Total(r.stock, other, n) == Total(stock, other, n)
  {
    var r := Sweep(stock, sku, home, n, 0);
    var d := SweepTakesFirst(stock, sku, home, n, 0);
    TotalAfter(stock, r.stock, r.key, sku, n);
    if d < n {
      TotalNonNegative(stock, sku, n);
    } else {
      forall i: nat | i < n
        ensures At(stock, Shard(sku, i)) == 0
      {
        var e := ProbeCovers(home, n, i);
        assert Probe(sku, home, e, n) == Shard(sku, i);
      }
      TotalZero(stock, sku, n);
    }
    forall other | other != sku
      ensures Total(r.stock, other, n) == Total(stock, other, n)
    {
      TotalAfter(stock, r.stock, r.key, other, n);
    }
  }

  // ---- seeding

  /** Go's integer division and remainder truncate toward zero. */
  function TruncDiv(a: int, n: nat): int
    requires n > 0
  {
    if a >= 0 then a / n else -((-a) / n)
  }

  function TruncMod(a: int, n: nat): int
    requires n > 0
  {
    a - TruncDiv(a, n) * n
  }

  function Share(quantity: int, n: nat, i: nat): int
    requires n > 0
  {
    TruncDiv(quantity, n) + (if i < TruncMod(quantity, n) then 1 else 0)
  }

  /** The stock after the first `k` shards have been written. */
  function Seeded(stock: Stock, sku: string, quantity: int, n: nat, k: nat): Stock
    requires n > 0
  {
    if k == 0 then stock
    else Seeded(stock, sku, quantity, n, k - 1)[Shard(sku, k - 1) := Share(quantity, n, k - 1)]
  }

  lemma {:induction false} SeededAt(stock: Stock, sku: string, quantity: int, n: nat, k: nat, key: InvKey)
    requires n > 0
    ensures At(Seeded(stock, sku, quantity, n, k), key) ==
      if key.Shard? && key.sku == sku && key.index < k then Share(quantity, n, key.index) else At(stock, key)
  {
    if k > 0 {
      SeededAt(stock, sku, quantity, n, k - 1, key);
    }
  }

  function ShareSum(quantity: int, n: nat, k: nat): int
    requires n > 0
  {
    if k == 0 then 0 else ShareSum(quantity, n, k - 1) + Share(quantity, n, k - 1)
  }

  lemma {:induction false} ShareSumIs(quantity: int, n: nat, k: nat)
    requires n > 0 && k <= n
    ensures var rem := TruncMod(quantity, n);
      ShareSum(quantity, n, k) == k * TruncDiv(quantity, n) + (if rem <= 0 then 0 else if k <= rem then k else rem)
  {
    if k > 0 {
      ShareSumIs(quantity, n, k - 1);
      var q := TruncDiv(quantity, n);
      assert k * q == (k - 1) * q + q;
    }
  }

  lemma {:induction false} SeededTotal(stock: Stock, sku: string, quantity: int, n: nat, k: nat)
    requires n > 0 && k <= n
    ensures Total(Seeded(stock, sku, quantity, n, n), sku, k) == ShareSum(quantity, n, k)
  {
    if k > 0 {
      SeededTotal(stock, sku, quantity, n, k - 1);
      SeededAt(stock, sku, quantity, n, n, Shard(sku, k - 1));
    }
  }

  lemma RemainderSign(quantity: int, n: nat)
    requires n > 0
    ensures quantity >= 0 ==> 0 <= TruncMod(quantity, n) < n && TruncDiv(quantity, n) >= 0
    ensures quantity < 0 ==> TruncMod(quantity, n) <= 0
  {
    if quantity >= 0 {
      assert quantity == (quantity / n) * n + quantity % n;
    } else {
      var p := -quantity;
      assert p == (p / n) * n + p % n;
      assert TruncDiv(quantity, n) * n == -((p / n) * n);
    }
  }

  /** Seeding makes the shards sum to the stock exactly when the stock is not negative or
      splits evenly; a non-negative stock is spread so that shards differ by at most one. */
  lemma SeedSplitsStock(stock: Stock, sku: string, quantity: int, n: nat)
    requires n > 0
    ensures var s := Seeded(stock, sku, quantity, n, n);
      && (Total(s, sku, n) == quantity <==> quantity >= 0 || TruncMod(quantity, n) == 0)
      && (quantity >= 0 ==> forall i: nat, j: nat :: i < n && j < n ==>
            0 <= At(s, Shard(sku, i)) <= At(s, Shard(sku, j)) + 1)
      && (forall other :: other != sku ==> Total(s, other, n) == Total(stock, other, n))
  {
    var s := Seeded(stock, sku, quantity, n, n);
    RemainderSign(quantity, n);
    SeededTotal(stock, sku, quantity, n, n);
    ShareSumIs(quantity, n, n);
    forall i: nat | i < n
      ensures At(s, Shard(sku, i)) == Share(quantity, n, i)
    {
      SeededAt(stock, sku, quantity, n, n, Shard(sku, i));
    }
    forall other | other != sku
      ensures Total(s, other, n) == Total(stock, other, n)
    {
      forall i: nat | i < n
        ensures At(s, Shard(other, i)) == At(stock, Shard(other, i))
      {
        SeededAt(stock, sku, quantity, n, n, Shard(other, i));
      }
      TotalSame(stock, s, other, n);
    }
  }

  lemma NegativeRemainder(quantity: int, n: nat)
    requires n > 0 && quantity < 0
    ensures 0 <= -TruncMod(quantity, n) < n && TruncDiv(quantity, n) <= 0
  {
    var p := -quantity;
    assert p == (p / n) * n + p % n;
    assert TruncDiv(quantity, n) * n == -((p / n) * n);
  }

  /** Which shards get more: the first ones, and for a negative stock none, so that its total is
      rounded toward zero. */
  lemma SharesDescend(stock: Stock, sku: string, quantity: int, n: nat)
    requires n > 0
    ensures var s := Seeded(stock, sku, quantity, n, n);
      && (forall i: nat, j: nat | i <= j < n :: At(s, Shard(sku, i)) >= At(s, Shard(sku, j)))
      && (quantity < 0 ==>
            && 0 <= Total(s, sku, n) - quantity < n
            && forall i: nat, j: nat | i <= j < n :: At(s, Shard(sku, i)) == At(s, Shard(sku, j)) <= 0)
  {
    var s := Seeded(stock, sku, quantity, n, n);
    forall i: nat | i < n
      ensures At(s, Shard(sku, i)) == Share(quantity, n, i)
    {
      SeededAt(stock, sku, quantity, n, n, Shard(sku, i));
    }
    if quantity < 0 {
      NegativeRemainder(quantity, n);
      SeededTotal(stock, sku, quantity, n, n);
      ShareSumIs(quantity, n, n);
      NegativeTotal(quantity, n, Total(s, sku, n));
    }
  }

  lemma NegativeTotal(quantity: int, n: nat, total: int)
    requires n > 0 && total == n * TruncDiv(quantity, n) && 0 <= -TruncMod(quantity, n) < n
    ensures 0 <= total - quantity < n
  {
  }

  lemma SeedStaysNonNegative(stock: Stock, sku: string, quantity: int, n: nat)
    requires n > 0 && NonNegative(stock) && quantity >= 0
    ensures NonNegative(Seeded(stock, sku, quantity, n, n))
  {
    RemainderSign(quantity, n);
    var s := Seeded(stock, sku, quantity, n, n);
    forall key | key in s
      ensures 0 <= s[key]
    {
      SeededAt(stock, sku, quantity, n, n, key);
      assert s[key] == At(s, key);
    }
  }

  // ---- the sharded store as a machine, and the single counter it refines

  datatype Store = Store(stock: Stock, soldOut: set<string>, cells: Cells)

  datatype Op =
    | OpSeed(sku: string, quantity: int)
    | OpReserve(sku: string, home: nat)
    | OpHold(id: string, until: int)
    | OpCompensate(id: string, now: int, sku: string, index: nat)

  datatype Answer = Done | Taken(ok: bool) | Restored(ok: bool)

  datatype Stepped<S> = Stepped(state: S, answer: Answer)

  function ReserveIn(n: nat, s: Store, sku: string, home: nat): Stepped<Store>
    requires n > 0
  {
    if sku in s.soldOut then Stepped(s, Taken(false))
    else
      var r := Sweep(s.stock, sku, home, n, 0);
      Stepped(s.(stock := r.stock, soldOut := if r.key.Some? then s.soldOut else s.soldOut + {sku}), Taken(r.key.Some?))
  }

  function CompensateIn(s: Store, id: string, now: int, key: InvKey): Stepped<Store> {
    var r := ReleaseStock(s.stock, s.cells, now, id, key);
    var soldOut := if r.restored && key.sku != "" then s.soldOut - {key.sku} else s.soldOut;
    Stepped(Store(r.stock, soldOut, r.cells), Restored(r.restored))
  }

  function StepSharded(n: nat, s: Store, op: Op): Stepped<Store>
    requires n > 0
  {
    match op
    case OpSeed(sku, quantity) =>
      Stepped(s.(stock := Seeded(s.stock, sku, quantity, n, n), soldOut := s.soldOut - {sku}), Done)
    case OpReserve(sku, home) => ReserveIn(n, s, sku, home)
    case OpHold(id, until) => Stepped(s.(cells := s.cells[id := Reserved(until)]), Done)
    case OpCompensate(id, now, sku, index) => CompensateIn(s, id, now, Shard(sku, index))
  }

  /** The reference: one counter per SKU and no latch. */
  datatype Counter = Counter(count: map<string, int>, cells: Cells)

  function CountOf(s: Counter, sku: string): int {
    if sku in s.count then s.count[sku] else 0
  }

  function StepCounter(s: Counter, op: Op): Stepped<Counter> {
    match op
    case OpSeed(sku, quantity) => Stepped(s.(count := s.count[sku := quantity]), Done)
    case OpReserve(sku, _) =>
      if CountOf(s, sku) > 0 then Stepped(s.(count := s.count[sku := CountOf(s, sku) - 1]), Taken(true))
      else Stepped(s, Taken(false))
    case OpHold(id, until) => Stepped(s.(cells := s.cells[id := Reserved(until)]), Done)
    case OpCompensate(id, now, sku, _) =>
      if Holds(s.cells, now, id)
      then Stepped(Counter(s.count[sku := CountOf(s, sku) + 1], s.cells[id := Compensated]), Restored(true))
      else Stepped(s, Restored(false))
  }

  /** Non-negative seeds, refunds to existing shards, and a SKU that is not empty. */
  predicate Proper(n: nat, op: Op) {
    match op
    case OpSeed(_, quantity) => quantity >= 0
    case OpCompensate(_, _, sku, index) => sku != "" && index < n
    case _ => true
  }

  ghost predicate Refines(n: nat, s: Store, t: Counter) {
    && NonNegative(s.stock) && s.cells == t.cells
    && (forall sku :: Total(s.stock, sku, n) == CountOf(t, sku))
    && (forall sku :: sku in s.soldOut ==> Total(s.stock, sku, n) == 0)
  }

  lemma SeedRefines(n: nat, s: Store, t: Counter, sku: string, quantity: int)
    requires n > 0 && Refines(n, s, t) && quantity >= 0
    ensures var op := OpSeed(sku, quantity); Refines(n, StepSharded(n, s, op).state, StepCounter(t, op).state)
  {
    SeedSplitsStock(s.stock, sku, quantity, n);
    SeedStaysNonNegative(s.stock, sku, quantity, n);
  }

  lemma ReserveRefines(n: nat, s: Store, t: Counter, sku: string, home: nat)
    requires n > 0 && Refines(n, s, t)
    ensures var op := OpReserve(sku, home);
      && Refines(n, StepSharded(n, s, op).state, StepCounter(t, op).state)
      && StepSharded(n, s, op).answer == StepCounter(t, op).answer
  {
    FullSweep(s.stock, sku, home, n);
    TotalNonNegative(s.stock, sku, n);
  }

  lemma CompensateRefines(n: nat, s: Store, t: Counter, id: string, now: int, sku: string, index: nat)
    requires n > 0 && Refines(n, s, t) && sku != "" && index < n
    ensures var op := OpCompensate(id, now, sku, index);
      && Refines(n, StepSharded(n, s, op).state, StepCounter(t, op).state)
      && StepSharded(n, s, op).answer == StepCounter(t, op).answer
  {
    forall other {
      TotalAdd(s.stock, other, n, Shard(sku, index), 1);
    }
  }

  lemma StepRefines(n: nat, s: Store, t: Counter, op: Op)
    requires n > 0 && Refines(n, s, t) && Proper(n, op)
    ensures Refines(n, StepSharded(n, s, op).state, StepCounter(t, op).state)
    ensures StepSharded(n, s, op).answer == StepCounter(t, op).answer
  {
    match op
    case OpSeed(sku, quantity) => SeedRefines(n, s, t, sku, quantity);
    case OpReserve(sku, home) => ReserveRefines(n, s, t, sku, home);
    case OpHold(_, _) =>
    case OpCompensate(id, now, sku, index) => CompensateRefines(n, s, t, id, now, sku, index);
  }

  /** After a reservation the SKU is latched iff it was latched before or had no stock, and only
      then is the reservation refused. */
  lemma ReserveLatchesIff(n: nat, s: Store, sku: string, home: nat)
    requires n > 0 && NonNegative(s.stock)
    ensures var r := StepSharded(n, s, OpReserve(sku, home));
      && (sku in r.state.soldOut <==> sku in s.soldOut || Total(s.stock, sku, n) == 0)
      && (r.answer == Taken(false) <==> sku in r.state.soldOut)
      && (forall other :: other != sku ==> (other in r.state.soldOut <==> other in s.soldOut))
      && (sku in s.soldOut ==> r.state == s)
  {
    FullSweep(s.stock, sku, home, n);
    TotalNonNegative(s.stock, sku, n);
  }

  datatype Ran<S> = Ran(state: S, answers: seq<Answer>)

  function RunSharded(n: nat, s: Store, ops: seq<Op>): Ran<Store>
    requires n > 0
  {
    if ops == [] then Ran(s, [])
    else
      var r := RunSharded(n, s, ops[..|ops| - 1]);
      var last := StepSharded(n, r.state, ops[|ops| - 1]);
      Ran(last.state, r.answers + [last.answer])
  }

  function RunCounter(s: Counter, ops: seq<Op>): Ran<Counter> {
    if ops == [] then Ran(s, [])
    else
      var r := RunCounter(s, ops[..|ops| - 1]);
      var last := StepCounter(r.state, ops[|ops| - 1]);
      Ran(last.state, r.answers + [last.answer])
  }

  /** The sharded stock with its sold-out latch gives the same answers as one counter on
      every run, and the latch is only ever set for a SKU whose total is 0. */
  lemma {:induction false} ShardsRefineOneCounter(n: nat, s: Store, t: Counter, ops: seq<Op>)
    requires n > 0 && Refines(n, s, t)
    requires forall k | 0 <= k < |ops| :: Proper(n, ops[k])
    ensures RunSharded(n, s, ops).answers == RunCounter(t, ops).answers
    ensures Refines(n, RunSharded(n, s, ops).state, RunCounter(t, ops).state)
  {
    if ops != [] {
      var before := ops[..|ops| - 1];
      ShardsRefineOneCounter(n, s, t, before);
      StepRefines(n, RunSharded(n, s, before).state, RunCounter(t, before).state, ops[|ops| - 1]);
    }
  }

  /** With an empty SKU the refinement breaks: a refund does not clear the latch, so a
      later reservation is refused although a unit is there. */
  lemma EmptySkuStaysLatched(s: Store, id: string, now: int, n: nat, home: nat)
    requires n > 0 && "" in s.soldOut && Holds(s.cells, now, id) && NonNegative(s.stock)
    ensures var refunded := StepSharded(n, s, OpCompensate(id, now, "", 0)).state;
      && Total(refunded.stock, "", n) > 0
      && StepSharded(n, refunded, OpReserve("", home)).answer == Taken(false)
  {
    TotalAdd(s.stock, "", n, Shard("", 0), 1);
    TotalNonNegative(s.stock, "", n);
  }

  // ---- the code

  class Router {
    const shards: int
    const hash: string -> nat
    var stock: Stock
    var soldOut: set<string>
    var cells: Cells

    ghost function View(): Store
      reads this
    {
      Store(stock, soldOut, cells)
    }

    constructor (shards: int, hash: string -> nat)
      ensures this.shards == shards && this.hash == hash && View() == Store(map[], {}, map[])
    {
      this.shards, this.hash := shards, hash;
      stock, soldOut, cells := map[], {}, map[];
    }

    method SeedPartitionedStock(sku: string, quantity: int) returns (err: bool)
      modifies this
      ensures err <==> shards < 1
      ensures View() == if err then old(View()) else StepSharded(shards, old(View()), OpSeed(sku, quantity)).state
    {
      if shards < 1 {
        return true;
      }
      var base, rem := TruncDiv(quantity, shards), TruncMod(quantity, shards);
      var i := 0;
      while i < shards
        invariant 0 <= i <= shards
        invariant stock == Seeded(old(stock), sku, quantity, shards, i)
        invariant soldOut == old(soldOut) && cells == old(cells)
      {
        var qty := base;
        if i < rem {
          qty := qty + 1;
        }
        stock := stock[Shard(sku, i) := qty];
        i := i + 1;
      }
      soldOut := soldOut - {sku};
      err := false;
    }

    /** The total remaining across all shards; a missing counter adds nothing. */
    method Available(sku: string) returns (total: int)
      ensures total == if shards < 0 then 0 else Total(stock, sku, shards)
    {
      total := 0;
      var i := 0;
      while i < shards
        invariant 0 <= i && (i <= shards || shards < 0 == i)
        invariant shards >= 0 ==> total == Total(stock, sku, i)
        invariant shards < 0 ==> total == 0
      {
        if Shard(sku, i) in stock {
          total := total + stock[Shard(sku, i)];
        }
        i := i + 1;
      }
    }

    method Reserve(sku: string, user: string) returns (key: Option<InvKey>)
      requires shards > 0
      modifies this
      ensures Stepped(View(), Taken(key.Some?)) == StepSharded(shards, old(View()), OpReserve(sku, hash(user) % shards))
      ensures key.Some? ==> key == Sweep(old(stock), sku, hash(user) % shards, shards, 0).key
    {
      var home := hash(user) % shards;
      if sku in soldOut {
        return None;
      }
      var offset := 0;
      while offset < shards
        invariant 0 <= offset <= shards
        invariant Sweep(stock, sku, home, shards, offset) == Sweep(old(stock), sku, home, shards, 0)
        invariant soldOut == old(soldOut) && cells == old(cells)
      {
        var k := Probe(sku, home, offset, shards);
        stock := Add(stock, k, -1);
        if stock[k] >= 0 {
          return Some(k);
        }
        stock := Add(stock, k, 1);
        offset := offset + 1;
      }
      soldOut := soldOut + {sku};
      key := None;
    }

    method Compensate(id: string, now: int, key: InvKey) returns (restored: bool)
      modifies this
      ensures Stepped(View(), Restored(restored)) == CompensateIn(old(View()), id, now, key)
      ensures restored <==> id in old(cells) && old(cells)[id].Reserved? && now < old(cells)[id].until
      ensures stock == if restored then Add(old(stock), key, 1) else old(stock)
      ensures cells == if restored then old(cells)[id := Compensated] else old(cells)
      ensures soldOut == if restored && key.sku != "" then old(soldOut) - {key.sku} else old(soldOut)
    {
      restored := Holds(cells, now, id);
      if restored {
        stock := Add(stock, key, 1);
        cells := cells[id := Compensated];
        if key.sku != "" {
          soldOut := soldOut - {key.sku};
        }
      }
    }
  }
}
