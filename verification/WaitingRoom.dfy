/** The waiting room of one event, as internal/waitingroom and the scripts admit_batch.lua and
    consume_admit.lua keep it in Redis: a sorted set of sessions, heartbeat keys and admission
    tokens with expiry. Times are microseconds of one clock. */
module WaitingRoom {
  import opened Common

  const SECOND := 1_000_000

  /** Time to live of heartbeats and of admission tokens. */
  datatype AnySettings = Settings(heartbeat: int, admission: int)

  type Settings = s: AnySettings | s.heartbeat > 0 && s.admission >= SECOND witness Settings(1, SECOND)

  // ---- the order of the sorted set

  /** Byte-wise comparison of member names. */
  predicate LexLess(a: string, b: string) {
    if b == "" then false
    else if a == "" then true
    else if a[0] != b[0] then a[0] < b[0]
    else LexLess(a[1..], b[1..])
  }

  lemma {:induction false} LexTotal(a: string, b: string)
    ensures a != b <==> LexLess(a, b) || LexLess(b, a)
    ensures !(LexLess(a, b) && LexLess(b, a))
  {
    if a != "" && b != "" && a[0] == b[0] {
      LexTotal(a[1..], b[1..]);
      assert a == [a[0]] + a[1..] && b == [b[0]] + b[1..];
    }
  }

  lemma {:induction false} LexTransitive(a: string, b: string, c: string)
    requires LexLess(a, b) && LexLess(b, c)
    ensures LexLess(a, c)
  {
    if a != "" && a[0] == b[0] == c[0] {
      LexTransitive(a[1..], b[1..], c[1..]);
    }
  }

  /** It is the order of byte strings: at the first difference the smaller byte is first, and a
      proper prefix is before the longer name. */
  lemma {:induction false} LexIs(a: string, b: string, k: nat)
    requires k <= |a| && k <= |b| && a[..k] == b[..k]
    ensures k < |a| && k < |b| && a[k] < b[k] ==> LexLess(a, b) && !LexLess(b, a)
    ensures k == |a| < |b| ==> LexLess(a, b) && !LexLess(b, a)
  {
    if k > 0 {
      assert a[0] == a[..k][0] == b[..k][0] == b[0];
      assert a[1..][..k - 1] == a[..k][1..] == b[..k][1..] == b[1..][..k - 1];
      LexIs(a[1..], b[1..], k - 1);
    }
  }

  /** A member and its score: the time it joined, rounded to a float64. */
  datatype Ticket = Ticket(score: int, sid: string)

  predicate Before(t: Ticket, u: Ticket) {
    t.score < u.score || (t.score == u.score && LexLess(t.sid, u.sid))
  }

  lemma BeforeTotal(t: Ticket, u: Ticket)
    ensures t != u <==> Before(t, u) || Before(u, t)
    ensures !(Before(t, u) && Before(u, t))
  {
    LexTotal(t.sid, u.sid);
  }

  lemma BeforeTransitive(t: Ticket, u: Ticket, v: Ticket)
    requires Before(t, u) && Before(u, v)
    ensures Before(t, v)
  {
    if t.score == u.score == v.score { LexTransitive(t.sid, u.sid, v.sid); }
  }

  predicate Ordered(q: seq<Ticket>) {
    forall i, j | 0 <= i < j < |q| :: Before(q[i], q[j]) && q[i].sid != q[j].sid
  }

  function Sids(ts: seq<Ticket>): set<string> { set t | t in ts :: t.sid }

  /** ZADD NX: where a new member goes. */
  function Slot(q: seq<Ticket>, t: Ticket): (k: nat)
    ensures k <= |q|
  {
    if q == [] || !Before(q[0], t) then 0 else 1 + Slot(q[1..], t)
  }

  function Insert(q: seq<Ticket>, t: Ticket): seq<Ticket> {
    if t.sid in Sids(q) then q else q[..Slot(q, t)] + [t] + q[Slot(q, t)..]
  }

  lemma {:induction false} SlotSeparates(q: seq<Ticket>, t: Ticket)
    requires Ordered(q) && t.sid !in Sids(q)
    ensures forall i | 0 <= i < |q| :: if i < Slot(q, t) then Before(q[i], t) else Before(t, q[i])
  {
    if q != [] {
      assert q[0].sid in Sids(q);
      if Before(q[0], t) {
        assert forall u :: u in q[1..] ==> u in q;
        SlotSeparates(q[1..], t);
        assert forall i | 1 <= i < |q| :: q[i] == q[1..][i - 1];
      } else {
        BeforeTotal(t, q[0]);
        forall i | 0 <= i < |q|
          ensures Before(t, q[i])
        {
          if i > 0 { BeforeTransitive(t, q[0], q[i]); }
        }
      }
    }
  }

  lemma InsertPair(q: seq<Ticket>, t: Ticket, k: nat, r: seq<Ticket>, i: nat, j: nat)
    requires Ordered(q) && t.sid !in Sids(q) && k <= |q| && r == q[..k] + [t] + q[k..] && i < j < |r|
    requires forall i | 0 <= i < |q| :: if i < k then Before(q[i], t) else Before(t, q[i])
    ensures Before(r[i], r[j]) && r[i].sid != r[j].sid
  {
    if i == k {
      assert r[j] == q[j - 1] && q[j - 1].sid in Sids(q);
    } else if j == k {
      assert r[i] == q[i] && q[i].sid in Sids(q);
    } else {
      assert r[i] == q[if i < k then i else i - 1] && r[j] == q[if j < k then j else j - 1];
    }
  }

  /** One ticket more. */
  ghost predicate IsJoined(q: seq<Ticket>, t: Ticket, r: seq<Ticket>) {
    Ordered(r) && forall u :: u in r <==> u in q || u == t
  }

  /** Inserting keeps the set sorted, without duplicate members, and adds only that member. */
  lemma InsertOrdered(q: seq<Ticket>, t: Ticket)
    requires Ordered(q)
    ensures Ordered(Insert(q, t))
    ensures Sids(Insert(q, t)) == Sids(q) + {t.sid}
    ensures t.sid in Sids(q) ==> Insert(q, t) == q
    ensures t.sid !in Sids(q) ==> IsJoined(q, t, Insert(q, t))
  {
    if t.sid in Sids(q) {
      assert Sids(q) + {t.sid} == Sids(q);
    } else {
      SlotSeparates(q, t);
      var k, r := Slot(q, t), Insert(q, t);
      forall i, j | 0 <= i < j < |r|
        ensures Before(r[i], r[j]) && r[i].sid != r[j].sid
      {
        InsertPair(q, t, k, r, i, j);
      }
      InsertMembers(q, t, k);
      SidsGrow(q, r, t);
    }
  }

  lemma InsertMembers(q: seq<Ticket>, t: Ticket, k: nat)
    requires k <= |q|
    ensures forall u :: u in q[..k] + [t] + q[k..] <==> u in q || u == t
  {
    assert q == q[..k] + q[k..];
  }

  lemma SidsGrow(q: seq<Ticket>, r: seq<Ticket>, t: Ticket)
    requires forall u :: u in r <==> u in q || u == t
    ensures Sids(r) == Sids(q) + {t.sid}
  {
    forall x
      ensures x in Sids(r) <==> x in Sids(q) + {t.sid}
    {
      if x in Sids(q) {
        var u :| u in q && u.sid == x;
        assert u in r;
      }
      if x == t.sid { assert t in r; }
    }
  }

  /** ZRANK */
  function Rank(q: seq<Ticket>, sid: string): Option<nat> {
    if q == [] then None
    else if q[0].sid == sid then Some(0)
    else match Rank(q[1..], sid) case None => None case Some(k) => Some(k + 1)
  }

  lemma {:induction false} RankFinds(q: seq<Ticket>, sid: string)
    ensures match Rank(q, sid)
            case None => sid !in Sids(q)
            case Some(k) => k < |q| && q[k].sid == sid
  {
    if q != [] && q[0].sid != sid {
      RankFinds(q[1..], sid);
      assert q == [q[0]] + q[1..];
    }
  }

  /** `pos` is the session's place in the queue: the number of tickets with a smaller score, or the
      same and a smaller name. A session that is not queued is at -1. */
  predicate IsPlace(q: seq<Ticket>, sid: string, pos: int) {
    if sid !in Sids(q) then pos == -1
    else
      && 0 <= pos < |q| && q[pos].sid == sid
      && forall i | 0 <= i < |q| ::
           i < pos <==> q[i].score < q[pos].score || (q[i].score == q[pos].score && LexLess(q[i].sid, sid))
  }

  function Position(rank: Option<nat>): int { match rank case None => -1 case Some(k) => k }

  lemma RankIsPlace(q: seq<Ticket>, sid: string)
    requires Ordered(q)
    ensures IsPlace(q, sid, Position(Rank(q, sid)))
  {
    RankFinds(q, sid);
    if Rank(q, sid).Some? {
      var r := Rank(q, sid).value;
      forall i | 0 <= i < |q|
        ensures i < r <==> Before(q[i], q[r])
      {
        BeforeTotal(q[i], q[r]);
      }
    }
  }

  /** What a join leaves, and where it finds the session. */
  ghost predicate Joins(q: seq<Ticket>, t: Ticket, r: seq<Ticket>) {
    && (if t.sid in Sids(q) then r == q else IsJoined(q, t, r))
    && Rank(r, t.sid).Some? && IsPlace(r, t.sid, Rank(r, t.sid).value) && t.sid in Sids(r)
  }

  lemma InsertJoins(q: seq<Ticket>, t: Ticket)
    requires Ordered(q)
    ensures Joins(q, t, Insert(q, t))
  {
    InsertOrdered(q, t);
    RankFinds(Insert(q, t), t.sid);
    RankIsPlace(Insert(q, t), t.sid);
  }

  // ---- the admit loop

  /** One kind of key with its expiry times, at one instant. */
  datatype Keys = Keys(expiry: map<string, int>, now: int) {
    predicate Has(sid: string) { sid in expiry && now < expiry[sid] }
  }

  /** The members of `q` that are alive, in queue order. */
  function Living(q: seq<Ticket>, live: Keys): seq<Ticket> {
    if q == [] then []
    else (if live.Has(q[0].sid) then [q[0]] else []) + Living(q[1..], live)
  }

  /** The script: who is admitted, and the queue left behind. */
  function Batch(q: seq<Ticket>, live: Keys, rate: int): (seq<Ticket>, seq<Ticket>) {
    if rate <= 0 || q == [] then ([], q)
    else if live.Has(q[0].sid) then
      var (out, rest) := Batch(q[1..], live, rate - 1);
      ([q[0]] + out, rest)
    else Batch(q[1..], live, rate)
  }

  lemma {:induction false} LivingSplits(q: seq<Ticket>, live: Keys, k: nat)
    requires k <= |q|
    ensures Living(q, live) == Living(q[..k], live) + Living(q[k..], live)
  {
    if k > 0 {
      LivingSplits(q[1..], live, k - 1);
      assert q[..k][1..] == q[1..][..k - 1] && q[1..][k - 1..] == q[k..];
    } else {
      assert q[..0] == [] && q[0..] == q;
    }
  }

  lemma {:induction false} LivingAre(q: seq<Ticket>, live: Keys, t: Ticket)
    ensures t in Living(q, live) <==> t in q && live.Has(t.sid)
  {
    if q != [] {
      LivingAre(q[1..], live, t);
      assert q == [q[0]] + q[1..];
    }
  }

  /** One batch pops a prefix of the queue and admits the living members of just that prefix. */
  lemma {:induction false} BatchPops(q: seq<Ticket>, live: Keys, rate: int) returns (k: nat)
    ensures var (out, rest) := Batch(q, live, rate);
      && k <= |q| && rest == q[k..] && out == Living(q[..k], live) && |out| <= k
      && |out| <= (if rate > 0 then rate else 0)
      && (|out| < rate ==> k == |q|)
      && (k > 0 ==> live.Has(q[k - 1].sid) || |out| < rate)
  {
    if rate <= 0 || q == [] {
      k := 0;
    } else {
      var rec := BatchPops(q[1..], live, if live.Has(q[0].sid) then rate - 1 else rate);
      k := rec + 1;
      assert q[..k][1..] == q[1..][..rec] && q[..k][0] == q[0];
      assert rec > 0 ==> q[1..][rec - 1] == q[k - 1];
    }
  }

  /** The batch is FIFO and exact: it admits the first min(rate, number alive) living members
      in queue order, leaves the unpopped suffix, drops no living member, stops on an admitted
      one, and empties the queue when it admits fewer than `rate`. */
  lemma BatchIsFifo(q: seq<Ticket>, live: Keys, rate: nat) returns (k: nat)
    ensures var (out, rest) := Batch(q, live, rate);
      && |out| == (if |Living(q, live)| < rate then |Living(q, live)| else rate)
      && out == Living(q, live)[..|out|]
      && k <= |q| && rest == q[k..]
      && (forall i | 0 <= i < k :: live.Has(q[i].sid) <==> q[i] in out)
      && (0 < k < |q| ==> live.Has(q[k - 1].sid))
      && (|out| < rate ==> rest == [])
  {
    k := BatchPops(q, live, rate);
    var (out, rest) := Batch(q, live, rate);
    LivingSplits(q, live, k);
    forall i | 0 <= i < k
      ensures live.Has(q[i].sid) <==> q[i] in out
    {
      LivingAre(q[..k], live, q[i]);
      assert q[..k][i] == q[i];
    }
  }

  // ---- the room as a step system

  datatype State = State(
    queue: seq<Ticket>,
    heartbeats: map<string, int>,   // expiry of room:<event>:hb:<sid>
    tokens: map<string, int>,       // expiry of room:<event>:admitted:<sid>
    checked: multiset<string>,      // calls of Admit that have seen a heartbeat
    now: int)

  datatype Action =
    | Join(sid: string, score: int)
    | Heartbeat(sid: string)
    | Tick(rate: int)
    | AdmitCheck(sid: string)
    | AdmitSet(sid: string)
    | Consume(sid: string)
    | Advance(to: int)

  function Live(s: State): Keys { Keys(s.heartbeats, s.now) }

  function Tokens(s: State): Keys { Keys(s.tokens, s.now) }

  /** EX takes whole seconds. */
  function BatchTTL(c: Settings): int { c.admission - c.admission % SECOND }

  /** The whole seconds of the setting: less than one second short of it. */
  lemma BatchTTLIs(c: Settings)
    ensures BatchTTL(c) % 1_000_000 == 0 && c.admission - 1_000_000 < BatchTTL(c) <= c.admission && BatchTTL(c) > 0
  {
  }

  function Granted(tokens: map<string, int>, out: seq<Ticket>, until: int): map<string, int> {
    if out == [] then tokens
    else Granted(tokens, out[..|out| - 1], until)[out[|out| - 1].sid := until]
  }

  lemma {:induction false} GrantedTo(tokens: map<string, int>, out: seq<Ticket>, until: int, sid: string)
    ensures var all := Granted(tokens, out, until);
      && (sid in all <==> sid in Sids(out) || sid in tokens)
      && (sid in all ==> all[sid] == if sid in Sids(out) then until else tokens[sid])
  {
    if out != [] {
      var n := |out| - 1;
      GrantedTo(tokens, out[..n], until, sid);
      assert out == out[..n] + [out[n]];
      SidsGrow(out[..n], out, out[n]);
    }
  }

  function Ticked(c: Settings, s: State, rate: int): State {
    var (out, rest) := Batch(s.queue, Live(s), rate);
    s.(queue := rest, tokens := Granted(s.tokens, out, s.now + BatchTTL(c)))
  }

  predicate Consumes(s: State, a: Action) { a.Consume? && Tokens(s).Has(a.sid) }

  function Apply(c: Settings, s: State, a: Action): State {
    match a
    case Join(sid, score) =>
      s.(heartbeats := s.heartbeats[sid := s.now + c.heartbeat], queue := Insert(s.queue, Ticket(score, sid)))
    case Heartbeat(sid) => s.(heartbeats := s.heartbeats[sid := s.now + c.heartbeat])
    case Tick(rate) => Ticked(c, s, rate)
    case AdmitCheck(sid) => if Live(s).Has(sid) then s.(checked := s.checked + multiset{sid}) else s
    case AdmitSet(sid) =>
      if sid in s.checked then
        s.(checked := s.checked - multiset{sid}, tokens := s.tokens[sid := s.now + c.admission])
      else s
    case Consume(sid) => if Consumes(s, a) then s.(tokens := s.tokens - {sid}) else s
    case Advance(to) => if s.now <= to then s.(now := to) else s
  }

  function Run(c: Settings, s: State, acts: seq<Action>): State {
    if acts == [] then s else Apply(c, Run(c, s, acts[..|acts| - 1]), acts[|acts| - 1])
  }

  /** The tickets that one step, or a run, admits. */
  function AdmittedBy(s: State, a: Action): seq<Ticket> {
    if a.Tick? then Batch(s.queue, Live(s), a.rate).0 else []
  }

  function Admitted(c: Settings, s: State, acts: seq<Action>): seq<Ticket> {
    if acts == [] then []
    else
      var before := acts[..|acts| - 1];
      Admitted(c, s, before) + AdmittedBy(Run(c, s, before), acts[|acts| - 1])
  }

  lemma BatchOrdered(q: seq<Ticket>, live: Keys, rate: int)
    requires Ordered(q)
    ensures Ordered(Batch(q, live, rate).1)
  {
    var k := BatchPops(q, live, rate);
  }

  lemma StepOrdered(c: Settings, s: State, a: Action)
    requires Ordered(s.queue)
    ensures Ordered(Apply(c, s, a).queue)
  {
    if a.Join? { InsertOrdered(s.queue, Ticket(a.score, a.sid)); }
    if a.Tick? { BatchOrdered(s.queue, Live(s), a.rate); }
  }

  lemma {:induction false} RunOrdered(c: Settings, s: State, acts: seq<Action>)
    requires Ordered(s.queue)
    ensures Ordered(Run(c, s, acts).queue)
  {
    if acts != [] {
      RunOrdered(c, s, acts[..|acts| - 1]);
      StepOrdered(c, Run(c, s, acts[..|acts| - 1]), acts[|acts| - 1]);
    }
  }

  // ---- no overtaking and the wait bound

  /** `sid` has a heartbeat at every tick of the run. */
  ghost predicate LiveThroughout(c: Settings, s: State, acts: seq<Action>, sid: string) {
    forall k | 0 <= k < |acts| && acts[k].Tick? :: Live(Run(c, s, acts[..k])).Has(sid)
  }

  /** How many joins of other sessions during the run are ordered before `t`. */
  function JoinsAhead(t: Ticket, acts: seq<Action>): nat {
    if acts == [] then 0
    else JoinsAhead(t, acts[..|acts| - 1]) + if IsAhead(t, acts[|acts| - 1]) then 1 else 0
  }

  predicate IsAhead(t: Ticket, a: Action) { a.Join? && a.sid != t.sid && Before(Ticket(a.score, a.sid), t) }

  function Ticks(acts: seq<Action>): nat {
    if acts == [] then 0 else Ticks(acts[..|acts| - 1]) + if acts[|acts| - 1].Tick? then 1 else 0
  }

  lemma LiveThroughoutPrefix(c: Settings, s: State, acts: seq<Action>, sid: string)
    requires LiveThroughout(c, s, acts, sid) && acts != []
    ensures LiveThroughout(c, s, acts[..|acts| - 1], sid)
    ensures acts[|acts| - 1].Tick? ==> Live(Run(c, s, acts[..|acts| - 1])).Has(sid)
  {
    var before := acts[..|acts| - 1];
    forall k | 0 <= k < |before| && before[k].Tick?
      ensures Live(Run(c, s, before[..k])).Has(sid)
    {
      assert before[..k] == acts[..k] && before[k] == acts[k];
    }
  }

  /** A batch that leaves a living ticket at position `r` in the queue admits only earlier
      ones, and moves it up by at least the rate. */
  lemma BatchPassesOver(q: seq<Ticket>, live: Keys, rate: int, r: nat) returns (at: nat)
    requires Ordered(q) && r < |q| && live.Has(q[r].sid) && q[r] !in Batch(q, live, rate).0
    ensures var (out, rest) := Batch(q, live, rate);
      && (forall u :: u in out ==> Before(u, q[r]))
      && at < |rest| && rest[at] == q[r] && at <= r && (rate > 0 ==> at + rate <= r)
  {
    var k := BatchPops(q, live, rate);
    PoppedIsAdmitted(q, live, k, r);
    at := r - k;
    forall u | u in Batch(q, live, rate).0
      ensures Before(u, q[r])
    {
      LivingAre(q[..k], live, u);
      var i :| 0 <= i < k && q[..k][i] == u;
      assert Before(q[i], q[r]);
    }
  }

  lemma PoppedIsAdmitted(q: seq<Ticket>, live: Keys, k: nat, r: nat)
    requires k <= |q| && r < |q| && live.Has(q[r].sid) && q[r] !in Living(q[..k], live)
    ensures k <= r
  {
    LivingAre(q[..k], live, q[r]);
    assert forall i | 0 <= i < k :: q[i] in q[..k];
  }

  /** A join moves a ticket back by one if it is ordered before it, and else not at all. */
  lemma JoinMoves(q: seq<Ticket>, u: Ticket, r: nat) returns (at: nat)
    requires Ordered(q) && r < |q|
    ensures at < |Insert(q, u)| && Insert(q, u)[at] == q[r]
    ensures at <= r + if u.sid != q[r].sid && Before(u, q[r]) then 1 else 0
  {
    at := r;
    if u.sid !in Sids(q) {
      assert q[r].sid in Sids(q);
      SlotSeparates(q, u);
      BeforeTotal(q[r], u);
      if Slot(q, u) <= r { at := r + 1; }
    }
  }

  lemma JoinKeepsMembers(q: seq<Ticket>, u: Ticket, t: Ticket)
    requires t in q
    ensures t in Insert(q, u)
  {
    InsertMembers(q, u, Slot(q, u));
  }

  /** Across any ticks, joins, evictions and expiries, nobody ordered after a session that
      stays live is admitted before it. */
  lemma {:induction false} NoOvertaking(c: Settings, s: State, acts: seq<Action>, t: Ticket)
    requires Ordered(s.queue) && t in s.queue
    requires LiveThroughout(c, s, acts, t.sid) && t !in Admitted(c, s, acts)
    ensures t in Run(c, s, acts).queue
    ensures forall u :: u in Admitted(c, s, acts) ==> u.score < t.score || (u.score == t.score && LexLess(u.sid, t.sid))
  {
    if acts != [] {
      var before, a := acts[..|acts| - 1], acts[|acts| - 1];
      LiveThroughoutPrefix(c, s, acts, t.sid);
      NoOvertaking(c, s, before, t);
      RunOrdered(c, s, before);
      var mid := Run(c, s, before);
      if a.Join? { JoinKeepsMembers(mid.queue, Ticket(a.score, a.sid), t); }
      if a.Tick? {
        var r :| 0 <= r < |mid.queue| && mid.queue[r] == t;
        var at := BatchPassesOver(mid.queue, Live(mid), a.rate, r);
      }
    }
  }

  /** The admissions that the ticks of a run have room for. */
  function Places(acts: seq<Action>): nat {
    if acts == [] then 0
    else
      var a := acts[|acts| - 1];
      Places(acts[..|acts| - 1]) + if a.Tick? && a.rate > 0 then a.rate else 0
  }

  lemma {:induction false} MovesUp(c: Settings, s: State, acts: seq<Action>, t: Ticket, r: nat) returns (at: nat)
    requires Ordered(s.queue) && r < |s.queue| && s.queue[r] == t
    requires LiveThroughout(c, s, acts, t.sid) && t !in Admitted(c, s, acts)
    ensures at < |Run(c, s, acts).queue| && Run(c, s, acts).queue[at] == t
    ensures at + Places(acts) <= r + JoinsAhead(t, acts)
  {
    if acts == [] {
      at := r;
    } else {
      var before, a := acts[..|acts| - 1], acts[|acts| - 1];
      LiveThroughoutPrefix(c, s, acts, t.sid);
      at := MovesUp(c, s, before, t, r);
      RunOrdered(c, s, before);
      var mid := Run(c, s, before);
      if a.Join? { at := JoinMoves(mid.queue, Ticket(a.score, a.sid), at); }
      if a.Tick? { at := BatchPassesOver(mid.queue, Live(mid), a.rate, at); }
    }
  }

  /** A live session at rank `r` is admitted as soon as the ticks have had room for more than
      `r` sessions and those that have joined ahead of it since: a later join only counts if its
      score ties or its clock is behind. */
  lemma AdmittedInTime(c: Settings, s: State, acts: seq<Action>, t: Ticket, r: nat)
    requires Ordered(s.queue) && r < |s.queue| && s.queue[r] == t && Places(acts) > r + JoinsAhead(t, acts)
    requires LiveThroughout(c, s, acts, t.sid)
    ensures t in Admitted(c, s, acts)
  {
    if t !in Admitted(c, s, acts) {
      var at := MovesUp(c, s, acts, t, r);
    }
  }

  lemma {:induction false} PlacesOfTicks(acts: seq<Action>, rate: nat)
    requires forall k | 0 <= k < |acts| && acts[k].Tick? :: acts[k].rate == rate
    ensures Places(acts) == Ticks(acts) * rate
  {
    if acts != [] {
      PlacesOfTicks(acts[..|acts| - 1], rate);
    }
  }

  lemma EnoughTicks(r: nat, rate: nat, n: nat)
    requires rate >= 1 && n >= r / rate + 1
    ensures n * rate > r
  {
    var q := r / rate;
    assert r == q * rate + r % rate;
    assert (n - q - 1) * rate >= 0;
    assert n * rate == (n - q - 1) * rate + q * rate + rate;
  }

  /** The wait bound: at a constant rate that is by tick number r / rate + 1, counting joins
      ahead of it into `r`. */
  lemma WaitBound(c: Settings, s: State, acts: seq<Action>, t: Ticket, r: nat, rate: nat)
    requires Ordered(s.queue) && r < |s.queue| && s.queue[r] == t && rate >= 1
    requires forall k | 0 <= k < |acts| && acts[k].Tick? :: acts[k].rate == rate
    requires LiveThroughout(c, s, acts, t.sid)
    requires Ticks(acts) >= (r + JoinsAhead(t, acts)) / rate + 1
    ensures t in Admitted(c, s, acts)
  {
    PlacesOfTicks(acts, rate);
    EnoughTicks(r + JoinsAhead(t, acts), rate, Ticks(acts));
    AdmittedInTime(c, s, acts, t, r);
  }

  // ---- admission tokens

  predicate IssuesTo(s: State, a: Action, sid: string) {
    match a
    case Tick(_) => sid in Sids(AdmittedBy(s, a))
    case AdmitSet(x) => x == sid && sid in s.checked
    case _ => false
  }

  function Issued(c: Settings, s: State, acts: seq<Action>, sid: string): nat {
    if acts == [] then 0
    else
      var before, a := acts[..|acts| - 1], acts[|acts| - 1];
      Issued(c, s, before, sid) + if IssuesTo(Run(c, s, before), a, sid) then 1 else 0
  }

  function Consumed(c: Settings, s: State, acts: seq<Action>, sid: string): nat {
    if acts == [] then 0
    else
      var before, a := acts[..|acts| - 1], acts[|acts| - 1];
      Consumed(c, s, before, sid) + if a.Consume? && a.sid == sid && Consumes(Run(c, s, before), a) then 1 else 0
  }

  function Stored(s: State, sid: string): nat { if sid in s.tokens then 1 else 0 }

  lemma StepKeepsLedger(c: Settings, s: State, a: Action, sid: string)
    ensures Stored(Apply(c, s, a), sid) + (if a.Consume? && a.sid == sid && Consumes(s, a) then 1 else 0)
         <= Stored(s, sid) + if IssuesTo(s, a, sid) then 1 else 0
  {
    if a.Tick? { GrantedTo(s.tokens, AdmittedBy(s, a), s.now + BatchTTL(c), sid); }
  }

  /** Admission tokens are single use: in every run a session passes the checkout gate at most
      as often as a batch or `Admit` issued it a token. */
  lemma {:induction false} SingleUse(c: Settings, s: State, acts: seq<Action>, sid: string)
    ensures Consumed(c, s, acts, sid) + Stored(Run(c, s, acts), sid) <= Issued(c, s, acts, sid) + Stored(s, sid)
  {
    if acts != [] {
      var before, a := acts[..|acts| - 1], acts[|acts| - 1];
      SingleUse(c, s, before, sid);
      StepKeepsLedger(c, Run(c, s, before), a, sid);
    }
  }

  /** A batch issues tokens to sessions with a heartbeat at that very step and to nobody else;
      it takes them off the queue. */
  lemma TickIssuesToLiving(c: Settings, s: State, rate: int, sid: string)
    requires Ordered(s.queue)
    ensures var s' := Ticked(c, s, rate);
      IssuesTo(s, Tick(rate), sid) ==>
        && Live(s).Has(sid) && Rank(s'.queue, sid) == None && sid in Sids(s.queue)
        && sid in s'.tokens && s'.tokens[sid] == s.now + BatchTTL(c) > s.now
    ensures var s' := Ticked(c, s, rate);
      !IssuesTo(s, Tick(rate), sid) ==>
        && (sid in s'.tokens <==> sid in s.tokens)
        && (sid in s.tokens ==> s'.tokens[sid] == s.tokens[sid])
        && (Live(s).Has(sid) && sid in Sids(s.queue) ==> sid in Sids(s'.queue))
  {
    BatchSids(s.queue, Live(s), rate, sid);
    GrantedTo(s.tokens, AdmittedBy(s, Tick(rate)), s.now + BatchTTL(c), sid);
  }

  lemma BatchSids(q: seq<Ticket>, live: Keys, rate: int, sid: string)
    requires Ordered(q)
    ensures var (out, rest) := Batch(q, live, rate);
      && (sid in Sids(out) ==> live.Has(sid) && sid in Sids(q) && Rank(rest, sid) == None)
      && (sid !in Sids(out) && live.Has(sid) && sid in Sids(q) ==> sid in Sids(rest))
  {
    var k := BatchPops(q, live, rate);
    if sid in Sids(Living(q[..k], live)) {
      AdmittedSid(q, live, k, sid);
    } else if live.Has(sid) && sid in Sids(q) {
      LeftSid(q, live, k, sid);
    }
  }

  lemma AdmittedSid(q: seq<Ticket>, live: Keys, k: nat, sid: string)
    requires Ordered(q) && k <= |q| && sid in Sids(Living(q[..k], live))
    ensures live.Has(sid) && sid in Sids(q) && Rank(q[k..], sid) == None
  {
    var t :| t in Living(q[..k], live) && t.sid == sid;
    LivingAre(q[..k], live, t);
    var i :| 0 <= i < k && q[..k][i] == t;
    assert q[i] == t;
    SidsApart(q, k, i);
    RankFinds(q[k..], sid);
  }

  lemma SidsApart(q: seq<Ticket>, k: nat, i: nat)
    requires Ordered(q) && i < k <= |q|
    ensures q[i].sid !in Sids(q[k..])
  {
    forall t | t in q[k..]
      ensures t.sid != q[i].sid
    {
      var j :| 0 <= j < |q[k..]| && q[k..][j] == t;
      assert q[k + j] == t;
    }
  }

  lemma LeftSid(q: seq<Ticket>, live: Keys, k: nat, sid: string)
    requires k <= |q| && sid !in Sids(Living(q[..k], live)) && live.Has(sid) && sid in Sids(q)
    ensures sid in Sids(q[k..])
  {
    var t :| t in q && t.sid == sid;
    LivingAre(q[..k], live, t);
    assert q == q[..k] + q[k..];
  }

  // ---- what sessions are told

  /** Position and whether an admission token is there, read at two points of a run: ZRANK finds
      `at`, and EXISTS, asked only about a queued session, finds `later`. */
  function StatusReply(at: State, later: State, sid: string): (Option<nat>, bool) {
    match Rank(at.queue, sid)
    case None => (None, false)
    case Some(k) => (Some(k), Tokens(later).Has(sid))
  }

  /** The same in one transaction. */
  function HeartbeatReply(s: State, sid: string): (Option<nat>, bool) {
    (Rank(s.queue, sid), Tokens(s).Has(sid))
  }

  /** Where the session stands and whether it has a token, in terms of the queue and the keys. */
  predicate IsAnswer(s: State, sid: string, pos: int, admitted: bool) {
    IsPlace(s.queue, sid, pos) && (admitted <==> sid in s.tokens && s.now < s.tokens[sid])
  }

  lemma HeartbeatAnswers(s: State, sid: string)
    requires Ordered(s.queue)
    ensures IsAnswer(s, sid, Position(HeartbeatReply(s, sid).0), HeartbeatReply(s, sid).1)
  {
    RankIsPlace(s.queue, sid);
  }

  /** A token that is there at the EXISTS is missed exactly when the session is out of the queue
      at the ZRANK; Heartbeat misses none. */
  lemma StatusMissesTokenIff(at: State, later: State, sid: string)
    requires Tokens(later).Has(sid)
    ensures StatusReply(at, later, sid) == (None, false) <==> sid !in Sids(at.queue)
    ensures sid in Sids(at.queue) ==> StatusReply(at, later, sid).0.Some? && StatusReply(at, later, sid).1
    ensures HeartbeatReply(later, sid).1
  {
    RankFinds(at.queue, sid);
  }

  predicate NoJoinOf(acts: seq<Action>, sid: string) {
    forall k | 0 <= k < |acts| :: !(acts[k].Join? && acts[k].sid == sid)
  }

  /** Only a join of its own brings a session into the queue. */
  lemma {:induction false} StaysOut(c: Settings, s: State, acts: seq<Action>, sid: string)
    requires Ordered(s.queue) && sid !in Sids(s.queue) && NoJoinOf(acts, sid)
    ensures sid !in Sids(Run(c, s, acts).queue)
  {
    if acts != [] {
      var before, a := acts[..|acts| - 1], acts[|acts| - 1];
      StaysOut(c, s, before, sid);
      RunOrdered(c, s, before);
      var mid := Run(c, s, before);
      assert !(a.Join? && a.sid == sid);
      if a.Join? {
        InsertOrdered(mid.queue, Ticket(a.score, a.sid));
      } else if a.Tick? {
        var k := BatchPops(mid.queue, Live(mid), a.rate);
      }
    }
  }

  /** Status reports the admission by a batch only to a call that the batch falls into, between
      its ZRANK and its EXISTS. A call whose ZRANK comes after the batch, however much later, is
      answered as if the session had never queued, unless it has joined again; Heartbeat shows
      the token as long as that is there. */
  lemma StatusMissesAdmission(c: Settings, s: State, rate: int, sid: string, acts: seq<Action>, at: State)
    requires Ordered(s.queue) && IssuesTo(s, Tick(rate), sid)
    requires at == Run(c, Ticked(c, s, rate), acts) && NoJoinOf(acts, sid)
    ensures StatusReply(s, Ticked(c, s, rate), sid) == (Rank(s.queue, sid), true) && sid in Sids(s.queue)
    ensures forall later :: StatusReply(at, later, sid) == (None, false)
    ensures HeartbeatReply(at, sid) == (None, Tokens(at).Has(sid)) && HeartbeatReply(Ticked(c, s, rate), sid) == (None, true)
  {
    var ticked := Ticked(c, s, rate);
    TickIssuesToLiving(c, s, rate, sid);
    RankFinds(s.queue, sid);
    RankFinds(ticked.queue, sid);
    BatchOrdered(s.queue, Live(s), rate);
    StaysOut(c, ticked, acts, sid);
    RankFinds(at.queue, sid);
  }

  // ---- the code

  class Room {
    const c: Settings
    var queue: seq<Ticket>
    var heartbeats: map<string, int>
    var tokens: map<string, int>
    var now: int
    ghost var checked: multiset<string>
    ghost const init: State
    ghost var trace: seq<Action>

    ghost function View(): State
      reads this
    {
      State(queue, heartbeats, tokens, checked, now)
    }

    ghost predicate Valid()
      reads this
    {
      init.queue == [] && View() == Run(c, init, trace)
    }

    constructor (c: Settings, now: int)
      ensures Valid() && this.c == c && trace == [] && View() == State([], map[], map[], multiset{}, now)
    {
      this.c := c;
      queue, heartbeats, tokens, this.now := [], map[], map[], now;
      checked, trace := multiset{}, [];
      init := State([], map[], map[], multiset{}, now);
    }

    ghost method Took(a: Action, before: State)
      requires init.queue == [] && before == Run(c, init, trace) && View() == Apply(c, before, a)
      modifies `trace
      ensures Valid() && trace == old(trace) + [a]
    {
      assert (trace + [a])[..|trace|] == trace;
      trace := trace + [a];
    }

    /** Any other calls take any number of steps; each writes the tokens of its own checks. */
    method Interfere()
      requires Valid()
      modifies this
      ensures Valid() && old(trace) <= trace && old(checked) <= checked
    {
    }

    method Join(sid: string, score: int) returns (rank: nat)
      requires Valid()
      modifies `queue, `heartbeats, `trace
      ensures Valid() && trace == old(trace) + [Action.Join(sid, score)]
      ensures IsPlace(queue, sid, rank) && sid in Sids(queue)
      ensures if sid in Sids(old(queue)) then queue == old(queue) else IsJoined(old(queue), Ticket(score, sid), queue)
      ensures heartbeats == old(heartbeats)[sid := now + c.heartbeat]
    {
      ghost var before := View();
      heartbeats := heartbeats[sid := now + c.heartbeat];
      RunOrdered(c, init, trace);
      InsertJoins(queue, Ticket(score, sid));
      queue := Insert(queue, Ticket(score, sid));
      rank := Rank(queue, sid).value;
      Took(Action.Join(sid, score), before);
    }

    /** Two commands: the rank is looked up, then the token. */
    method Status(sid: string) returns (pos: int, admitted: bool)
      requires Valid()
      modifies this
      ensures Valid() && old(trace) <= trace
      ensures var (rank, token) := StatusReply(old(View()), View(), sid);
        admitted == token && pos == Position(rank)
      ensures IsPlace(old(queue), sid, pos)
      ensures admitted <==> sid in Sids(old(queue)) && sid in tokens && now < tokens[sid]
      ensures sid !in Sids(old(queue)) ==> View() == old(View())
    {
      var rank := Rank(queue, sid);
      RunOrdered(c, init, trace);
      RankFinds(queue, sid);
      RankIsPlace(queue, sid);
      if rank.None? {
        return -1, false;
      }
      Interfere();
      admitted := sid in tokens && now < tokens[sid];
      pos := rank.value;
    }

    method Beat(sid: string)
      requires Valid()
      modifies `heartbeats, `trace
      ensures Valid() && trace == old(trace) + [Action.Heartbeat(sid)]
      ensures heartbeats == old(heartbeats)[sid := now + c.heartbeat]
    {
      ghost var before := View();
      heartbeats := heartbeats[sid := now + c.heartbeat];
      Took(Action.Heartbeat(sid), before);
    }

    /** One transaction: the heartbeat is set, then rank and token are looked up. */
    method Heartbeat(sid: string) returns (pos: int, admitted: bool)
      requires Valid()
      modifies `heartbeats, `trace
      ensures Valid() && trace == old(trace) + [Action.Heartbeat(sid)]
      ensures heartbeats == old(heartbeats)[sid := now + c.heartbeat]
      ensures IsAnswer(View(), sid, pos, admitted) && HeartbeatReply(View(), sid) == (Rank(queue, sid), admitted)
    {
      Beat(sid);
      RunOrdered(c, init, trace);
      HeartbeatAnswers(View(), sid);
      var rank := Rank(queue, sid);
      admitted := sid in tokens && now < tokens[sid];
      pos := Position(rank);
    }

    method CheckHeartbeat(sid: string) returns (live: bool)
      requires Valid()
      modifies `checked, `trace
      ensures Valid() && trace == old(trace) + [AdmitCheck(sid)]
      ensures live <==> sid in heartbeats && now < heartbeats[sid]
      ensures checked == if live then old(checked) + multiset{sid} else old(checked)
    {
      ghost var before := View();
      live := sid in heartbeats && now < heartbeats[sid];
      if live {
        checked := checked + multiset{sid};
      }
      Took(AdmitCheck(sid), before);
    }

    method SetToken(sid: string)
      requires Valid() && sid in checked
      modifies `tokens, `checked, `trace
      ensures Valid() && trace == old(trace) + [AdmitSet(sid)]
      ensures tokens == old(tokens)[sid := now + c.admission]
    {
      ghost var before := View();
      tokens := tokens[sid := now + c.admission];
      checked := checked - multiset{sid};
      Took(AdmitSet(sid), before);
    }

    /** Two commands: the heartbeat is looked up, then the token is written. */
    method Admit(sid: string) returns (ok: bool)
      requires Valid()
      modifies this
      ensures Valid() && old(trace) <= trace
      ensures ok <==> sid in old(heartbeats) && old(now) < old(heartbeats)[sid]
      ensures ok ==> sid in tokens && tokens[sid] == now + c.admission
      ensures !ok ==> View() == old(View())
    {
      ok := CheckHeartbeat(sid);
      if ok {
        Interfere();
        SetToken(sid);
      }
    }

    method HasAdmission(sid: string) returns (has: bool)
      ensures has <==> sid in tokens && now < tokens[sid]
    {
      has := sid in tokens && now < tokens[sid];
    }

    /** consume_admit.lua */
    method ConsumeAdmission(sid: string) returns (ok: bool)
      requires Valid()
      modifies this
      ensures Valid() && trace == old(trace) + [Consume(sid)]
      ensures ok <==> sid in old(tokens) && now < old(tokens)[sid]
      ensures tokens == if ok then old(tokens) - {sid} else old(tokens)
    {
      ghost var before := View();
      ok := sid in tokens && now < tokens[sid];
      if ok {
        tokens := tokens - {sid};
      }
      Took(Consume(sid), before);
    }

    /** admit_batch.lua */
    method AdmitBatch(rate: int) returns (out: seq<string>)
      modifies `queue, `tokens
      ensures out == Names(AdmittedBy(old(View()), Tick(rate)))
      ensures View() == Apply(c, old(View()), Tick(rate))
    {
      ghost var before, until := View(), now + BatchTTL(c);
      ghost var taken := [];
      var admitted := 0;
      out := [];
      BatchStarts(queue, Live(before), rate);
      while admitted < rate && queue != []
        invariant admitted == |taken| && out == Names(taken)
        invariant tokens == Granted(before.tokens, taken, until)
        invariant Reaches(before.queue, Live(before), rate, taken, queue)
        decreases |queue|
      {
        var top := queue[0];
        BatchPopsOne(before.queue, Live(before), rate, taken, queue);
        queue := queue[1..];
        if top.sid in heartbeats && now < heartbeats[top.sid] {
          GrantedOneMore(before.tokens, taken, top, until);
          NameOneMore(taken, top);
          tokens := tokens[top.sid := now + BatchTTL(c)];
          admitted := admitted + 1;
          taken, out := taken + [top], out + [top.sid];
        }
      }
      BatchEnds(c, before, rate, taken, queue);
    }

    /** One tick of the worker; the sessions it is told it admitted. */
    method TickOnceForEvent(rate: int) returns (admitted: seq<string>)
      requires Valid()
      modifies this
      ensures Valid() && trace == old(trace) + [Tick(rate)]
      ensures admitted == Names(AdmittedBy(old(View()), Tick(rate)))
    {
      ghost var before := View();
      admitted := AdmitBatch(rate);
      Took(Tick(rate), before);
    }
  }

  /** Having admitted `taken`, the batch still has `queue` to go through. */
  ghost predicate Reaches(all: seq<Ticket>, live: Keys, rate: int, taken: seq<Ticket>, queue: seq<Ticket>) {
    var (more, rest) := Batch(queue, live, rate - |taken|);
    Batch(all, live, rate) == (taken + more, rest)
  }

  lemma BatchStarts(all: seq<Ticket>, live: Keys, rate: int)
    ensures Reaches(all, live, rate, [], all)
  {
    assert [] + Batch(all, live, rate).0 == Batch(all, live, rate).0;
  }

  lemma BatchPopsOne(all: seq<Ticket>, live: Keys, rate: int, taken: seq<Ticket>, queue: seq<Ticket>)
    requires Reaches(all, live, rate, taken, queue) && |taken| < rate && queue != []
    ensures Reaches(all, live, rate, if live.Has(queue[0].sid) then taken + [queue[0]] else taken, queue[1..])
  {
    var more := Batch(queue[1..], live, rate - |taken| - 1).0;
    assert taken + ([queue[0]] + more) == taken + [queue[0]] + more;
    assert rate - |taken + [queue[0]]| == rate - |taken| - 1;
  }

  lemma BatchEnds(c: Settings, s: State, rate: int, taken: seq<Ticket>, queue: seq<Ticket>)
    requires Reaches(s.queue, Live(s), rate, taken, queue) && (rate <= |taken| || queue == [])
    ensures AdmittedBy(s, Tick(rate)) == taken
    ensures Apply(c, s, Tick(rate)) == s.(queue := queue, tokens := Granted(s.tokens, taken, s.now + BatchTTL(c)))
  {
    assert taken + [] == taken;
  }

  function Names(ts: seq<Ticket>): seq<string> { seq(|ts|, k requires 0 <= k < |ts| => ts[k].sid) }

  /** The sessions that are reported admitted are those of the tickets, in order. */
  lemma NamesAre(c: Settings, s: State, rate: nat, names: seq<string>) returns (k: nat)
    requires names == Names(AdmittedBy(s, Tick(rate)))
    ensures k <= |s.queue| && |names| == |Living(s.queue[..k], Live(s))|
    ensures forall i | 0 <= i < |names| :: names[i] == Living(s.queue[..k], Live(s))[i].sid
    ensures |names| <= rate && (|names| < rate ==> k == |s.queue|)
  {
    k := BatchPops(s.queue, Live(s), rate);
  }

  lemma NameOneMore(ts: seq<Ticket>, t: Ticket)
    ensures Names(ts + [t]) == Names(ts) + [t.sid]
  {
  }

  lemma GrantedOneMore(tokens: map<string, int>, out: seq<Ticket>, t: Ticket, until: int)
    ensures Granted(tokens, out + [t], until) == Granted(tokens, out, until)[t.sid := until]
  {
    assert (out + [t])[..|out|] == out;
  }
}
