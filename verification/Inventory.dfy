/** Sharded stock counters: the Lua scripts reserve_stock.lua and release_stock.lua as
    atomic functions on the Redis keys they touch, and the sums of shard counters. */
module Inventory {
  import opened Common
  import Keys = InventoryKeys

  /** The Redis keys a refund or a reservation can name. `Stray` is the key that the
      dead-letter fallback builds when the home index has more than one digit. */
  datatype InvKey = Shard(sku: string, index: nat) | Stray(sku: string, ch: char)

  type Stock = map<InvKey, int>

  /** The value of `reservation:<order>`; a RESERVED cell carries its expiry. */
  datatype Cell = Reserved(until: int) | Published | Compensated

  type Cells = map<string, Cell>

  function KeyString(k: InvKey): string {
    match k
    case Shard(sku, index) => Keys.FormatKey(sku, index)
    case Stray(sku, ch) => Keys.PREFIX + sku + Keys.SEPARATOR + [ch]
  }

  /** Every key a refund can name parses back to its own SKU, so `key.sku` is the latch
      that `Compensate` clears. */
  lemma ParseKeyString(k: InvKey)
    ensures Keys.ParseSku(KeyString(k)) == k.sku
  {
    match k
    case Shard(sku, index) => Keys.ParseFormat(sku, index);
    case Stray(sku, ch) => Keys.ParseSuffixed(sku, [ch]);
  }

  /** A `Stray` key with a digit would be the key of a shard; no process builds one. */
  predicate Proper(k: InvKey) { k.Shard? || !Keys.IsDigit(k.ch) }

  /** Different keys are different Redis keys, so counters can be kept by `InvKey`. */
  lemma KeysAreDistinct(k: InvKey, k': InvKey)
    requires Proper(k) && Proper(k')
    ensures KeyString(k) == KeyString(k') <==> k == k'
  {
    if KeyString(k) == KeyString(k') {
      ParseKeyString(k);
      ParseKeyString(k');
      SuffixesAgree(k, k');
      SuffixTells(k, k');
    }
  }

  lemma SuffixTells(k: InvKey, k': InvKey)
    requires Proper(k) && Proper(k') && k.sku == k'.sku && Suffix(k) == Suffix(k')
    ensures k == k'
  {
    if k.Shard? && k'.Shard? {
      Keys.DecimalInjective(k.index, k'.index);
    } else {
      SuffixIsDigit(k);
      SuffixIsDigit(k');
    }
  }

  lemma SuffixIsDigit(k: InvKey)
    requires Proper(k)
    ensures Suffix(k) != "" && (Keys.IsDigit(Suffix(k)[0]) <==> k.Shard?)
  {
    if k.Shard? { Keys.DecimalIsDigits(k.index); }
  }

  function Suffix(k: InvKey): string {
    match k case Shard(_, index) => Keys.Decimal(index) case Stray(_, ch) => [ch]
  }

  lemma SuffixesAgree(k: InvKey, k': InvKey)
    requires k.sku == k'.sku && KeyString(k) == KeyString(k')
    ensures Suffix(k) == Suffix(k')
  {
    var stem := Keys.PREFIX + k.sku + Keys.SEPARATOR;
    assert KeyString(k) == stem + Suffix(k) && KeyString(k') == stem + Suffix(k');
    assert Suffix(k) == KeyString(k)[|stem|..] && Suffix(k') == KeyString(k')[|stem|..];
  }

  /** A missing counter reads as 0. */
  function At(stock: Stock, k: InvKey): int {
    if k in stock then stock[k] else 0
  }

  function Add(stock: Stock, k: InvKey, d: int): Stock {
    stock[k := At(stock, k) + d]
  }

  predicate NonNegative(stock: Stock) {
    forall k :: k in stock ==> 0 <= stock[k]
  }

  // ---- reserve_stock.lua

  datatype Reservation = Reservation(ok: bool, stock: Stock)

  function ReserveStock(stock: Stock, k: InvKey): Reservation {
    var decremented := Add(stock, k, -1);
    if decremented[k] < 0 then Reservation(false, Add(decremented, k, 1))
    else Reservation(true, decremented)
  }

  lemma ReserveStaysNonNegative(stock: Stock, k: InvKey)
    requires NonNegative(stock)
    ensures NonNegative(ReserveStock(stock, k).stock)
  {
  }

  lemma ReserveStockTakesOneIfAny(stock: Stock, k: InvKey)
    requires NonNegative(stock)
    ensures var r := ReserveStock(stock, k);
      && NonNegative(r.stock)
      && (r.ok <==> At(stock, k) > 0)
      && forall j :: At(r.stock, j) == At(stock, j) - (if r.ok && j == k then 1 else 0)
  {
  }

  // ---- release_stock.lua

  /** A RESERVED cell past its expiry is gone. */
  predicate Holds(cells: Cells, now: int, id: string) {
    id in cells && cells[id].Reserved? && now < cells[id].until
  }

  datatype Released = Released(restored: bool, stock: Stock, cells: Cells)

  function ReleaseStock(stock: Stock, cells: Cells, now: int, id: string, k: InvKey): Released {
    if Holds(cells, now, id) then Released(true, Add(stock, k, 1), cells[id := Compensated])
    else Released(false, stock, cells)
  }

  // ---- sums over the shards of one SKU

  function Total(stock: Stock, sku: string, n: nat): int {
    if n == 0 then 0 else Total(stock, sku, n - 1) + At(stock, Shard(sku, n - 1))
  }

  lemma {:induction false} TotalAdd(stock: Stock, sku: string, n: nat, k: InvKey, d: int)
    ensures Total(Add(stock, k, d), sku, n) ==
            Total(stock, sku, n) + (if k.Shard? && k.sku == sku && k.index < n then d else 0)
  {
    if n > 0 {
      TotalAdd(stock, sku, n - 1, k, d);
    }
  }

  lemma {:induction false} TotalSame(stock: Stock, stock': Stock, sku: string, n: nat)
    requires forall i: nat :: i < n ==> At(stock', Shard(sku, i)) == At(stock, Shard(sku, i))
    ensures Total(stock', sku, n) == Total(stock, sku, n)
  {
    if n > 0 {
      TotalSame(stock, stock', sku, n - 1);
    }
  }

  lemma {:induction false} TotalNonNegative(stock: Stock, sku: string, n: nat)
    requires NonNegative(stock)
    ensures 0 <= Total(stock, sku, n)
    ensures forall i: nat :: i < n ==> At(stock, Shard(sku, i)) <= Total(stock, sku, n)
  {
    if n > 0 {
      TotalNonNegative(stock, sku, n - 1);
    }
  }

  lemma {:induction false} TotalZero(stock: Stock, sku: string, n: nat)
    requires forall i: nat :: i < n ==> At(stock, Shard(sku, i)) == 0
    ensures Total(stock, sku, n) == 0
  {
    if n > 0 {
      TotalZero(stock, sku, n - 1);
    }
  }

  /** A reservation moves at most one unit out of the SKU's total. */
  lemma ReserveTotal(stock: Stock, sku: string, n: nat, k: InvKey)
    ensures var r := ReserveStock(stock, k);
      Total(r.stock, sku, n) ==
      Total(stock, sku, n) - (if r.ok && k.Shard? && k.sku == sku && k.index < n then 1 else 0)
  {
    TotalAdd(stock, sku, n, k, -1);
    TotalAdd(Add(stock, k, -1), sku, n, k, 1);
  }

  // ---- the cyclic probe order

  function Probe(sku: string, home: nat, offset: nat, n: nat): InvKey
    requires n > 0
  {
    Shard(sku, (home + offset) % n)
  }

  /** The sweep reaches every shard index: `d` is the offset at which it does. */
  lemma ProbeCovers(home: nat, n: nat, i: nat) returns (d: nat)
    requires i < n
    ensures d < n && (home + d) % n == i
  {
    var h := home % n;
    d := if h <= i then i - h else i + n - h;
    var q := home / n;
    assert home == q * n + h;
    if h <= i {
      ModUnique(home + d, n, q, i);
    } else {
      assert (q + 1) * n == q * n + n;
      ModUnique(home + d, n, q + 1, i);
    }
  }

  /** The sweep reaches no shard index twice. */
  lemma ProbeDistinct(home: nat, n: nat, d: nat, e: nat)
    requires d < n && e < n && (home + d) % n == (home + e) % n
    ensures d == e
  {
    var r, qd, qe := (home + d) % n, (home + d) / n, (home + e) / n;
    assert home + d == qd * n + r;
    assert home + e == qe * n + r;
    QuotientUnique(n, qd, r - d, qe, r - e);
  }

  lemma ModUnique(x: nat, n: nat, q: nat, r: nat)
    requires r < n && x == q * n + r
    ensures x % n == r
  {
    QuotientUnique(n, q, r, x / n, x % n);
  }

  /** Two representations whose remainders lie less than `n` apart coincide. */
  lemma QuotientUnique(n: nat, q: int, r: int, q': int, r': int)
    requires q * n + r == q' * n + r' && r - r' < n && r' - r < n
    ensures q == q' && r == r'
  {
    assert (q - q') * n == q * n - q' * n;
    MultipleIsFar(q - q', n);
  }

  lemma MultipleIsFar(k: int, n: nat)
    ensures k >= 1 ==> k * n >= n
    ensures k <= -1 ==> k * n + n <= 0
  {
    if k >= 1 {
      assert k * n == n + (k - 1) * n;
    } else if k <= -1 {
      assert k * n + n == (k + 1) * n;
    }
  }
}
