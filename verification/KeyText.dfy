/** Redis key names put together with colons. */
module KeyText {
  function Join(head: string, tail: string): string { head + ":" + tail }

  /** strings.Split at ':' */
  function Split(s: string): (parts: seq<string>)
    ensures |parts| > 0
  {
    if ':' !in s then [s]
    else
      var i := FirstColon(s);
      [s[..i]] + Split(s[i + 1..])
  }

  function FirstColon(s: string): (i: nat)
    requires ':' in s
    ensures i < |s| && s[i] == ':' && (forall j | 0 <= j < i :: s[j] != ':')
  {
    if s[0] == ':' then 0
    else
      assert s == [s[0]] + s[1..];
      FirstColon(s[1..]) + 1
  }

  /** A colon-free part is split off in front. */
  lemma SplitHead(head: string, rest: string)
    requires ':' !in head
    ensures Split(Join(head, rest)) == [head] + Split(rest)
  {
    var s := Join(head, rest);
    assert s[|head|] == ':';
    var i := FirstColon(s);
    assert forall j | 0 <= j < |head| :: s[j] == head[j];
    assert s[..i] == head && s[i + 1..] == rest;
  }

  lemma {:induction false} SplitLength(s: string, tail: string)
    ensures |Split(Join(s, tail))| == |Split(s)| + |Split(tail)|
  {
    if ':' !in s {
      SplitHead(s, tail);
    } else {
      var i := FirstColon(s);
      assert Join(s, tail) == Join(s[..i], Join(s[i + 1..], tail));
      SplitHead(s[..i], Join(s[i + 1..], tail));
      SplitLength(s[i + 1..], tail);
    }
  }

  lemma SameTail(head: string, t1: string, t2: string)
    requires Join(head, t1) == Join(head, t2)
    ensures t1 == t2
  {
    assert t1 == Join(head, t1)[|head| + 1..] && t2 == Join(head, t2)[|head| + 1..];
  }

  lemma SameLastPart(a: string, k: string, b: string, l: string)
    requires ':' !in k && ':' !in l && Join(a, k) == Join(b, l)
    ensures a == b && k == l
  {
    var w := Join(a, k);
    assert w[|a|] == ':' && w[|b|] == ':';
    assert forall i | |a| < i < |w| :: w[i] == k[i - |a| - 1];
    assert forall i | |b| < i < |w| :: w[i] == l[i - |b| - 1];
    assert |a| == |b|;
    assert a == w[..|a|] == b && k == w[|a| + 1..] == l;
  }
}
