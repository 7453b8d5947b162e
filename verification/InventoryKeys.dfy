/** The Redis key of a shard counter, `inventory:<sku>:shard:<i>`, and the SKU read
    back from it. Models `parseSKUFromInvKey` and the key formats of
    internal/inventory/router.go, seeder.go and internal/order/dlq.go. */
module InventoryKeys {

  const PREFIX := "inventory:"
  const SEPARATOR := ":shard:"

  predicate IsDigit(ch: char) { '0' <= ch <= '9' }

  function Digit(d: nat): char
    requires d < 10
  {
    (('0' as int) + d) as char
  }

  /** Go's `%d` of a non-negative number. */
  function Decimal(n: nat): string {
    if n < 10 then [Digit(n)] else Decimal(n / 10) + [Digit(n % 10)]
  }

  function FormatKey(sku: string, index: nat): string {
    PREFIX + sku + SEPARATOR + Decimal(index)
  }

  /** `strings.TrimPrefix` */
  function TrimPrefix(s: string, prefix: string): string {
    if prefix <= s then s[|prefix|..] else s
  }

  predicate OccursAt(s: string, sub: string, j: int) {
    0 <= j <= |s| - |sub| && s[j..j + |sub|] == sub
  }

  /** The largest position at or below `j` where `sub` occurs, or -1. */
  function LastIndexUpTo(s: string, sub: string, j: int): (r: int)
    ensures r == -1 || (r <= j && OccursAt(s, sub, r))
    ensures forall k :: r < k <= j ==> !OccursAt(s, sub, k)
    decreases j + 1
  {
    if j < 0 then -1
    else if OccursAt(s, sub, j) then j
    else LastIndexUpTo(s, sub, j - 1)
  }

  /** `strings.LastIndex` */
  function LastIndex(s: string, sub: string): int {
    LastIndexUpTo(s, sub, |s| - |sub|)
  }

  function ParseSku(key: string): string {
    var s := TrimPrefix(key, PREFIX);
    var idx := LastIndex(s, SEPARATOR);
    if idx <= 0 then "" else s[..idx]
  }

  /** Go's `string(rune(n))`: an invalid code point becomes U+FFFD. */
  function RuneString(n: nat): char {
    if n < 0xD800 || 0xE000 <= n < 0x11_0000 then n as char else '\U{FFFD}'
  }

  /** The key the dead-letter handler builds when an event carries no shard key. */
  function FallbackKey(sku: string, home: nat): string {
    PREFIX + sku + SEPARATOR + [RuneString(('0' as int) + home)]
  }

  lemma {:induction false} DecimalIsDigits(n: nat)
    ensures Decimal(n) != []
    ensures forall k :: 0 <= k < |Decimal(n)| ==> IsDigit(Decimal(n)[k])
  {
    if n >= 10 {
      DecimalIsDigits(n / 10);
    }
  }

  lemma {:induction false} DecimalInjective(m: nat, n: nat)
    requires Decimal(m) == Decimal(n)
    ensures m == n
  {
    DecimalIsDigits(m / 10);
    DecimalIsDigits(n / 10);
    var dm, dn := Decimal(m), Decimal(n);
    assert dm[|dm| - 1] == dn[|dn| - 1];
    if m >= 10 && n >= 10 {
      assert dm[..|dm| - 1] == Decimal(m / 10);
      assert dn[..|dn| - 1] == Decimal(n / 10);
      DecimalInjective(m / 10, n / 10);
    }
  }

  /** The number that a string of digits reads as. */
  function Value(s: string): int {
    if s == "" then 0 else 10 * Value(s[..|s| - 1]) + (s[|s| - 1] as int - '0' as int)
  }

  /** Every number reads back from its digits, which have no leading zero. */
  lemma {:induction false} DecimalReads(n: nat)
    ensures Value(Decimal(n)) == n && Decimal(n) != "" && (Decimal(n)[0] == '0' ==> n == 0)
  {
    if n >= 10 {
      DecimalReads(n / 10);
      assert Decimal(n)[..|Decimal(n)| - 1] == Decimal(n / 10);
    } else {
      assert Decimal(n)[..0] == "";
    }
  }

  /** The text of the keys. */
  lemma KeyText(sku: string, index: nat)
    ensures FormatKey(sku, index) == "inventory:" + sku + ":shard:" + Decimal(index)
    ensures index < 10 ==> FallbackKey(sku, index) == "inventory:" + sku + ":shard:" + Decimal(index)
    ensures ParseSku("inventory:" + sku + ":shard:" + Decimal(index)) == sku
  {
    ParseFormat(sku, index);
    FallbackNamesShardIffOneDigit(sku, index);
  }

  /** What does not contain the separator, or has nothing in front of it, names no SKU. */
  lemma MalformedNamesNoSku(key: string)
    requires var s := if "inventory:" <= key then key[|"inventory:"|..] else key;
      forall k :: 0 < k ==> !OccursAt(s, ":shard:", k)
    ensures ParseSku(key) == ""
  {
  }

  /** The separator occurs nowhere after the position where the key format put it. */
  lemma SeparatorIsLast(sku: string, suffix: string)
    requires |suffix| <= 1 || forall k :: 0 <= k < |suffix| ==> suffix[k] != ':'
    ensures LastIndex(sku + SEPARATOR + suffix, SEPARATOR) == |sku|
  {
    var s := sku + SEPARATOR + suffix;
    assert s[|sku|..|sku| + |SEPARATOR|] == SEPARATOR;
    forall k | |sku| < k <= |s| - |SEPARATOR|
      ensures !OccursAt(s, SEPARATOR, k)
    {
      var t := s[k..k + |SEPARATOR|];
      assert t[0] == s[k] && t[1] == s[k + 1];
      if k < |sku| + |SEPARATOR| {
        assert s[k] == SEPARATOR[k - |sku|];
        if k == |sku| + 6 {
          assert t[6] == s[k + 6] == suffix[5];
        }
      } else {
        assert s[k] == suffix[k - |sku| - |SEPARATOR|];
      }
    }
    assert OccursAt(s, SEPARATOR, |sku|);
  }

  lemma TrimKey(sku: string, suffix: string)
    ensures TrimPrefix(PREFIX + sku + SEPARATOR + suffix, PREFIX) == sku + SEPARATOR + suffix
  {
    var key := PREFIX + sku + SEPARATOR + suffix;
    assert key == PREFIX + (sku + SEPARATOR + suffix);
    assert PREFIX <= key;
  }

  /** A refund addressed to any shard key clears the latch of exactly that key's SKU,
      whatever separators or prefixes the SKU itself contains. */
  lemma ParseFormat(sku: string, index: nat)
    ensures ParseSku(FormatKey(sku, index)) == sku
  {
    DecimalIsDigits(index);
    ParseSuffixed(sku, Decimal(index));
  }

  lemma ParseSuffixed(sku: string, suffix: string)
    requires |suffix| <= 1 || forall k :: 0 <= k < |suffix| ==> suffix[k] != ':'
    ensures ParseSku(PREFIX + sku + SEPARATOR + suffix) == sku
  {
    TrimKey(sku, suffix);
    SeparatorIsLast(sku, suffix);
    var s := sku + SEPARATOR + suffix;
    assert s[..|sku|] == sku;
  }

  /** Different (SKU, index) pairs never share a counter, so a shard counter can be
      identified with its pair. */
  lemma FormatInjective(sku: string, index: nat, sku': string, index': nat)
    requires FormatKey(sku, index) == FormatKey(sku', index')
    ensures sku == sku' && index == index'
  {
    ParseFormat(sku, index);
    ParseFormat(sku', index');
    var key := FormatKey(sku, index);
    var cut := |PREFIX + sku + SEPARATOR|;
    assert key[cut..] == Decimal(index);
    assert FormatKey(sku', index')[cut..] == Decimal(index');
    DecimalInjective(index, index');
  }

  /** The dead-letter fallback names the counter of the home shard only when the home
      index has one digit; from ten shards on it names a key that no shard uses. */
  lemma FallbackNamesShardIffOneDigit(sku: string, home: nat)
    ensures FallbackKey(sku, home) == FormatKey(sku, home) <==> home < 10
    ensures home >= 10 ==> forall i: nat :: FormatKey(sku, i) != FallbackKey(sku, home)
  {
    var suffix := [RuneString(('0' as int) + home)];
    var cut := |PREFIX + sku + SEPARATOR|;
    assert FallbackKey(sku, home)[cut..] == suffix;
    if home < 10 {
      assert suffix == Decimal(home);
    } else {
      forall i: nat
        ensures FormatKey(sku, i) != FallbackKey(sku, home)
      {
        DecimalIsDigits(i);
        assert FormatKey(sku, i)[cut..] == Decimal(i);
        assert IsDigit(Decimal(i)[0]) && !IsDigit(suffix[0]);
      }
    }
  }
}
