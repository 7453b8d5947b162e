/** All waiting rooms in one Redis, where every room's keys are plain strings side by side: how
    far admission tokens are single use there, and when rooms are independent of each other
    (internal/waitingroom/room.go and worker.go). */
module WaitingRoomStore {
  import opened Common
  import Room = WaitingRoom
  import opened KeyText
  import opened WaitingRoomKeys

  type Settings = Room.Settings

  /** What a key holds: a sorted set, or a string with an expiry. */
  datatype Entry = Zset(members: seq<Room.Ticket>) | Value(until: int)

  type Entries = map<string, Entry>

  datatype Store = Store(
    entries: Entries,
    checked: multiset<(string, string)>,   // calls of Admit that have seen a heartbeat
    now: int)

  datatype Action =
    | Enter(event: string, sid: string, score: int)   // Room.Join
    | Heartbeat(event: string, sid: string)
    | Tick(event: string, rate: int)
    | AdmitCheck(event: string, sid: string)
    | AdmitSet(event: string, sid: string)
    | Consume(event: string, sid: string)
    | Advance(to: int)

  /** EXISTS: a key of any type that has not expired. */
  predicate Exists(s: Store, key: string) { key in s.entries && (s.entries[key].Zset? || s.now < s.entries[key].until) }

  /** GET: None for a missing key and for one of the wrong type. */
  predicate HasValue(s: Store, key: string) { Exists(s, key) && s.entries[key].Value? }

  /** The sorted set of a queue, empty if the key is missing; None if the key is of the wrong type. */
  function QueueAt(s: Store, event: string): Option<seq<Room.Ticket>> {
    var key := QueueKey(event);
    if !Exists(s, key) then Some([])
    else match s.entries[key] case Zset(q) => Some(q) case Value(_) => None
  }

  /** An empty sorted set is no key at all. */
  function PutQueue(entries: Entries, event: string, q: seq<Room.Ticket>): Entries {
    if q == [] then entries - {QueueKey(event)} else entries[QueueKey(event) := Zset(q)]
  }

  /** Those of the queue whose heartbeat key exists. */
  function LiveIn(s: Store, event: string, q: seq<Room.Ticket>): Room.Keys {
    Room.Keys(map sid | sid in Room.Sids(q) && Exists(s, HeartbeatKey(event, sid)) :: s.now + 1, s.now)
  }

  function BatchOf(s: Store, event: string, rate: int): (seq<Room.Ticket>, seq<Room.Ticket>) {
    match QueueAt(s, event)
    case None => ([], [])
    case Some(q) => Room.Batch(q, LiveIn(s, event, q), rate)
  }

  function Granted(entries: Entries, event: string, out: seq<Room.Ticket>, until: int): Entries {
    if out == [] then entries
    else
      var n := |out| - 1;
      Granted(entries, event, out[..n], until)[AdmissionKey(event, out[n].sid) := Value(until)]
  }

  function Ticked(c: Settings, s: Store, event: string, rate: int): Store {
    if QueueAt(s, event).None? then s
    else
      var (out, rest) := BatchOf(s, event, rate);
      s.(entries := Granted(PutQueue(s.entries, event, rest), event, out, s.now + Room.BatchTTL(c)))
  }

  function Beaten(c: Settings, s: Store, event: string, sid: string): Store {
    s.(entries := s.entries[HeartbeatKey(event, sid) := Value(s.now + c.heartbeat)])
  }

  /** ZADD NX, after the heartbeat is set; on a key of the wrong type only that remains. */
  function Entered(c: Settings, s: Store, event: string, sid: string, score: int): Store {
    var s1 := Beaten(c, s, event, sid);
    match QueueAt(s1, event)
    case None => s1
    case Some(q) => s1.(entries := PutQueue(s1.entries, event, Room.Insert(q, Room.Ticket(score, sid))))
  }

  predicate Consumes(s: Store, a: Action) { a.Consume? && HasValue(s, AdmissionKey(a.event, a.sid)) }

  predicate Sets(s: Store, a: Action) { a.AdmitSet? && (a.event, a.sid) in s.checked }

  function Apply(c: Settings, s: Store, a: Action): Store {
    match a
    case Enter(event, sid, score) => Entered(c, s, event, sid, score)
    case Heartbeat(event, sid) => Beaten(c, s, event, sid)
    case Tick(event, rate) => Ticked(c, s, event, rate)
    case AdmitCheck(event, sid) =>
      if Exists(s, HeartbeatKey(event, sid)) then s.(checked := s.checked + multiset{(event, sid)}) else s
    case AdmitSet(event, sid) =>
      if Sets(s, a) then
        s.(checked := s.checked - multiset{(event, sid)},
           entries := s.entries[AdmissionKey(event, sid) := Value(s.now + c.admission)])
      else s
    case Consume(event, sid) => if Consumes(s, a) then s.(entries := s.entries - {AdmissionKey(event, sid)}) else s
    case Advance(to) => if s.now <= to then s.(now := to) else s
  }

  function Run(c: Settings, s: Store, acts: seq<Action>): Store {
    if acts == [] then s else Apply(c, Run(c, s, acts[..|acts| - 1]), acts[|acts| - 1])
  }

  /** Keys of the wrong type: a value under the queue's key makes a join only set its heartbeat and
      a batch do nothing; a queue under a heartbeat's key passes for one, and under an admission's
      key it is not consumed. */
  lemma WrongTypes(c: Settings, s: Store, event: string, sid: string, score: int, rate: int)
    ensures HasValue(s, QueueKey(event)) && HeartbeatKey(event, sid) != QueueKey(event) ==>
      && Apply(c, s, Enter(event, sid, score)) == Apply(c, s, Heartbeat(event, sid))
      && Apply(c, s, Tick(event, rate)) == s
    ensures HeartbeatKey(event, sid) in s.entries && s.entries[HeartbeatKey(event, sid)].Zset? ==>
      Apply(c, s, AdmitCheck(event, sid)).checked == s.checked + multiset{(event, sid)}
    ensures AdmissionKey(event, sid) in s.entries && s.entries[AdmissionKey(event, sid)].Zset? ==>
      Apply(c, s, Consume(event, sid)) == s
  {
  }

  // ---- the ledger of one key

  /** The action sets a value at the key, whatever for. */
  ghost predicate Writes(s: Store, a: Action, key: string) {
    match a
    case Enter(event, sid, _) => HeartbeatKey(event, sid) == key
    case Heartbeat(event, sid) => HeartbeatKey(event, sid) == key
    case Tick(event, rate) => exists sid :: sid in Room.Sids(BatchOf(s, event, rate).0) && AdmissionKey(event, sid) == key
    case AdmitSet(event, sid) => Sets(s, a) && AdmissionKey(event, sid) == key
    case _ => false
  }

  /** A consume that succeeds deletes it. */
  predicate Takes(s: Store, a: Action, key: string) { Consumes(s, a) && AdmissionKey(a.event, a.sid) == key }

  function Holds(entries: Entries, key: string): nat { if key in entries && entries[key].Value? then 1 else 0 }

  ghost function Written(c: Settings, s: Store, acts: seq<Action>, key: string): nat {
    if acts == [] then 0
    else
      var before, a := acts[..|acts| - 1], acts[|acts| - 1];
      Written(c, s, before, key) + if Writes(Run(c, s, before), a, key) then 1 else 0
  }

  function Taken(c: Settings, s: Store, acts: seq<Action>, key: string): nat {
    if acts == [] then 0
    else
      var before, a := acts[..|acts| - 1], acts[|acts| - 1];
      Taken(c, s, before, key) + if Takes(Run(c, s, before), a, key) then 1 else 0
  }

  lemma {:induction false} GrantedHolds(entries: Entries, event: string, out: seq<Room.Ticket>, until: int, key: string)
    ensures Holds(Granted(entries, event, out, until), key)
         <= Holds(entries, key) + if exists sid :: sid in Room.Sids(out) && AdmissionKey(event, sid) == key then 1 else 0
  {
    if out != [] {
      var n := |out| - 1;
      GrantedHolds(entries, event, out[..n], until, key);
      assert out[n].sid in Room.Sids(out);
      assert Room.Sids(out[..n]) <= Room.Sids(out);
    }
  }

  lemma TickLedger(c: Settings, s: Store, event: string, rate: int, key: string)
    ensures Holds(Ticked(c, s, event, rate).entries, key)
         <= Holds(s.entries, key) + if Writes(s, Tick(event, rate), key) then 1 else 0
  {
    if QueueAt(s, event).Some? {
      var (out, rest) := BatchOf(s, event, rate);
      GrantedHolds(PutQueue(s.entries, event, rest), event, out, s.now + Room.BatchTTL(c), key);
    }
  }

  lemma EnterLedger(c: Settings, s: Store, event: string, sid: string, score: int, key: string)
    ensures Holds(Entered(c, s, event, sid, score).entries, key)
         <= Holds(s.entries, key) + if HeartbeatKey(event, sid) == key then 1 else 0
  {
    assert Holds(Entered(c, s, event, sid, score).entries, key) <= Holds(Beaten(c, s, event, sid).entries, key);
  }

  lemma StepKeepsLedger(c: Settings, s: Store, a: Action, key: string)
    ensures Holds(Apply(c, s, a).entries, key) + (if Takes(s, a, key) then 1 else 0)
         <= Holds(s.entries, key) + if Writes(s, a, key) then 1 else 0
  {
    if a.Tick? {
      TickLedger(c, s, a.event, a.rate, key);
    } else if a.Enter? {
      EnterLedger(c, s, a.event, a.sid, a.score, key);
    }
  }

  /** Whatever rooms there are: what is taken from a key was written there, by a batch, an
      `Admit`, or any heartbeat of that name. */
  lemma {:induction false} KeyLedger(c: Settings, s: Store, acts: seq<Action>, key: string)
    ensures Taken(c, s, acts, key) + Holds(Run(c, s, acts).entries, key)
         <= Written(c, s, acts, key) + Holds(s.entries, key)
  {
    if acts != [] {
      var before, a := acts[..|acts| - 1], acts[|acts| - 1];
      KeyLedger(c, s, before, key);
      StepKeepsLedger(c, Run(c, s, before), a, key);
    }
  }

  // ---- the tokens of one session

  /** A batch of the event, or its `Admit`, issues the session a token. */
  predicate Issues(s: Store, a: Action, event: string, sid: string) {
    match a
    case Tick(e, rate) => e == event && sid in Room.Sids(BatchOf(s, e, rate).0)
    case AdmitSet(e, x) => e == event && x == sid && Sets(s, a)
    case _ => false
  }

  function Issued(c: Settings, s: Store, acts: seq<Action>, event: string, sid: string): nat {
    if acts == [] then 0
    else
      var before, a := acts[..|acts| - 1], acts[|acts| - 1];
      Issued(c, s, before, event, sid) + if Issues(Run(c, s, before), a, event, sid) then 1 else 0
  }

  /** How often the session passes the checkout gate of the event. */
  function Consumed(c: Settings, s: Store, acts: seq<Action>, event: string, sid: string): nat {
    if acts == [] then 0
    else
      var before, a := acts[..|acts| - 1], acts[|acts| - 1];
      Consumed(c, s, before, event, sid)
      + if Consumes(Run(c, s, before), a) && a.event == event && a.sid == sid then 1 else 0
  }

  /** The session's admission key is also a heartbeat key, or the admission key of another
      session or event. */
  ghost predicate SharesKey(event: string, sid: string) {
    exists e, x :: HeartbeatKey(e, x) == AdmissionKey(event, sid)
                   || (AdmissionKey(e, x) == AdmissionKey(event, sid) && (e, x) != (event, sid))
  }

  lemma OnlyOwnWrites(s: Store, a: Action, event: string, sid: string)
    requires !SharesKey(event, sid) && Writes(s, a, AdmissionKey(event, sid))
    ensures Issues(s, a, event, sid)
  {
  }

  lemma {:induction false} WrittenAreIssued(c: Settings, s: Store, acts: seq<Action>, event: string, sid: string)
    requires !SharesKey(event, sid)
    ensures Written(c, s, acts, AdmissionKey(event, sid)) <= Issued(c, s, acts, event, sid)
    ensures Consumed(c, s, acts, event, sid) <= Taken(c, s, acts, AdmissionKey(event, sid))
  {
    if acts != [] {
      var before, a := acts[..|acts| - 1], acts[|acts| - 1];
      WrittenAreIssued(c, s, before, event, sid);
      if Writes(Run(c, s, before), a, AdmissionKey(event, sid)) {
        OnlyOwnWrites(Run(c, s, before), a, event, sid);
      }
    }
  }

  /** A session whose admission key nobody shares passes the gate at most as often as it was
      issued a token, whatever goes on in all the rooms of the store. */
  lemma SingleUse(c: Settings, s: Store, acts: seq<Action>, event: string, sid: string)
    requires !SharesKey(event, sid)
    ensures Consumed(c, s, acts, event, sid) + Holds(Run(c, s, acts).entries, AdmissionKey(event, sid))
         <= Issued(c, s, acts, event, sid) + Holds(s.entries, AdmissionKey(event, sid))
  {
    KeyLedger(c, s, acts, AdmissionKey(event, sid));
    WrittenAreIssued(c, s, acts, event, sid);
  }

  // ---- the sharing of keys, in terms of the strings

  predicate OccursAt(pattern: string, w: string, i: nat) { i + |pattern| <= |w| && w[i..i + |pattern|] == pattern }

  lemma TextOf(e: string, x: string)
    ensures HeartbeatKey(e, x) == Join("room", e + ":hb:" + x)
    ensures AdmissionKey(e, x) == Join("room", e + ":admitted:" + x)
  {
    assert Join(e, Join("hb", x)) == e + ":hb:" + x;
    assert Join(e, Join("admitted", x)) == e + ":admitted:" + x;
  }

  lemma SplitsAt(pattern: string, w: string, i: nat)
    ensures OccursAt(pattern, w, i) <==> i <= |w| && exists x :: w[..i] + pattern + x == w
  {
    if OccursAt(pattern, w, i) {
      assert w[..i] + pattern + w[i + |pattern|..] == w;
    }
    if i <= |w| {
      forall x | w[..i] + pattern + x == w
        ensures OccursAt(pattern, w, i)
      {
        assert (w[..i] + pattern + x)[i..i + |pattern|] == pattern;
      }
    }
  }

  lemma HeartbeatSharesIff(event: string, sid: string)
    ensures (exists e, x :: HeartbeatKey(e, x) == AdmissionKey(event, sid)) <==>
            exists i: nat :: OccursAt(":hb:", event + ":admitted:" + sid, i)
  {
    var w := event + ":admitted:" + sid;
    TextOf(event, sid);
    if e, x :| HeartbeatKey(e, x) == AdmissionKey(event, sid) {
      TextOf(e, x);
      SameTail("room", e + ":hb:" + x, w);
      assert w[..|e|] == e;
      SplitsAt(":hb:", w, |e|);
    }
    if i: nat :| OccursAt(":hb:", w, i) {
      SplitsAt(":hb:", w, i);
      var x :| w[..i] + ":hb:" + x == w;
      TextOf(w[..i], x);
    }
  }

  lemma AdmissionSharesIff(event: string, sid: string)
    ensures (exists e, x :: AdmissionKey(e, x) == AdmissionKey(event, sid) && (e, x) != (event, sid)) <==>
            exists i: nat :: i != |event| && OccursAt(":admitted:", event + ":admitted:" + sid, i)
  {
    var w := event + ":admitted:" + sid;
    TextOf(event, sid);
    if e, x :| AdmissionKey(e, x) == AdmissionKey(event, sid) && (e, x) != (event, sid) {
      TextOf(e, x);
      SameTail("room", e + ":admitted:" + x, w);
      if |e| == |event| { SameCut(e, x, event, sid, ":admitted:"); }
      assert w[..|e|] == e;
      SplitsAt(":admitted:", w, |e|);
    }
    if i: nat :| i != |event| && OccursAt(":admitted:", w, i) {
      SplitsAt(":admitted:", w, i);
      var x :| w[..i] + ":admitted:" + x == w;
      TextOf(w[..i], x);
    }
  }

  lemma SameCut(a: string, b: string, a': string, b': string, pattern: string)
    requires a + pattern + b == a' + pattern + b' && |a| == |a'|
    ensures a == a' && b == b'
  {
    var w := a + pattern + b;
    assert w[..|a|] == a && w[..|a|] == a';
    assert w[|a| + |pattern|..] == b && w[|a| + |pattern|..] == b';
  }

  /** The exact condition: the text of the key, event and all, has ":hb:" in it, or another
      ":admitted:" than the one between event and session. */
  lemma SharesKeyIff(event: string, sid: string)
    ensures var w := event + ":admitted:" + sid;
      SharesKey(event, sid) <==>
      (exists i: nat :: OccursAt(":hb:", w, i)) || (exists i: nat :: i != |event| && OccursAt(":admitted:", w, i))
  {
    HeartbeatSharesIff(event, sid);
    AdmissionSharesIff(event, sid);
  }

  lemma OccursBetweenColons(pattern: string, w: string, i: nat)
    requires OccursAt(pattern, w, i) && pattern != "" && pattern[0] == ':' == pattern[|pattern| - 1]
    ensures w[i] == ':' == w[i + |pattern| - 1]
  {
    assert w[i] == w[i..i + |pattern|][0];
    assert w[i + |pattern| - 1] == w[i..i + |pattern|][|pattern| - 1];
  }

  lemma TextAt(event: string, sid: string, i: nat)
    requires i < |event| + 10 + |sid|
    ensures (event + ":admitted:" + sid)[i] ==
      if i < |event| then event[i] else if i < |event| + 10 then ":admitted:"[i - |event|] else sid[i - |event| - 10]
  {
  }

  lemma ColonsOf(event: string, sid: string, i: nat)
    requires ':' !in event && ':' !in sid && i < |event + ":admitted:" + sid| && (event + ":admitted:" + sid)[i] == ':'
    ensures i == |event| || i == |event| + 9
  {
    TextAt(event, sid, i);
  }

  /** Ids without a colon, as the gateway draws them, share no key in an event without one. */
  lemma ColonFreeSharesNoKey(event: string, sid: string)
    requires ':' !in event && ':' !in sid
    ensures !SharesKey(event, sid)
  {
    var w := event + ":admitted:" + sid;
    forall i: nat
      ensures !OccursAt(":hb:", w, i) && (OccursAt(":admitted:", w, i) ==> i == |event|)
    {
      if OccursAt(":hb:", w, i) {
        OccursBetweenColons(":hb:", w, i);
        ColonsOf(event, sid, i);
        ColonsOf(event, sid, i + 3);
      } else if OccursAt(":admitted:", w, i) {
        OccursBetweenColons(":admitted:", w, i);
        ColonsOf(event, sid, i);
        ColonsOf(event, sid, i + 9);
      }
    }
    SharesKeyIff(event, sid);
  }

  // ---- runs on which tokens are not single use

  function Fresh(now: int): Store { Store(map[], multiset{}, now) }

  lemma RunOne(c: Settings, s: Store, acts: seq<Action>, a: Action, event: string, sid: string)
    ensures Run(c, s, acts + [a]) == Apply(c, Run(c, s, acts), a)
    ensures Issued(c, s, acts + [a], event, sid) ==
            Issued(c, s, acts, event, sid) + if Issues(Run(c, s, acts), a, event, sid) then 1 else 0
    ensures Consumed(c, s, acts + [a], event, sid) == Consumed(c, s, acts, event, sid)
              + if Consumes(Run(c, s, acts), a) && a.event == event && a.sid == sid then 1 else 0
  {
    assert (acts + [a])[..|acts|] == acts;
  }

  /** The heartbeat of a session of another room is a token. */
  lemma HeartbeatAdmits(c: Settings, now: int, event: string, sid: string, e: string, x: string) returns (acts: seq<Action>)
    requires HeartbeatKey(e, x) == AdmissionKey(event, sid)
    ensures Consumed(c, Fresh(now), acts, event, sid) == 1 && Issued(c, Fresh(now), acts, event, sid) == 0
  {
    var beat, consume := Heartbeat(e, x), Consume(event, sid);
    RunOne(c, Fresh(now), [], beat, event, sid);
    RunOne(c, Fresh(now), [beat], consume, event, sid);
    acts := [beat] + [consume];
    assert [] + [beat] == [beat];
  }

  /** And so is the token of another session. */
  lemma OthersTokenAdmits(c: Settings, now: int, event: string, sid: string, e: string, x: string) returns (acts: seq<Action>)
    requires AdmissionKey(e, x) == AdmissionKey(event, sid) && (e, x) != (event, sid)
    ensures Consumed(c, Fresh(now), acts, event, sid) == 1 && Issued(c, Fresh(now), acts, event, sid) == 0
  {
    var enter, tick, consume := Enter(e, x, 0), Tick(e, 1), Consume(event, sid);
    RunOne(c, Fresh(now), [], enter, event, sid);
    RunOne(c, Fresh(now), [enter], tick, event, sid);
    RunOne(c, Fresh(now), [enter] + [tick], consume, event, sid);
    assert [] + [enter] == [enter];
    acts := [enter] + [tick] + [consume];
    EntersAndIsAdmitted(c, now, e, x);
  }

  lemma EntersAndIsAdmitted(c: Settings, now: int, e: string, x: string)
    ensures var s1 := Apply(c, Fresh(now), Enter(e, x, 0));
      BatchOf(s1, e, 1).0 == [Room.Ticket(0, x)] && HasValue(Apply(c, s1, Tick(e, 1)), AdmissionKey(e, x))
  {
    RoomKeysApart(e, x, x);
    var t := Room.Ticket(0, x);
    var s1 := Apply(c, Fresh(now), Enter(e, x, 0));
    assert Room.Insert([], t) == [t];
    assert QueueAt(s1, e) == Some([t]);
    assert t.sid in Room.Sids([t]);
    AdmitsTheOne(t, LiveIn(s1, e, [t]));
    assert [t][..0] == [];
  }

  lemma AdmitsTheOne(t: Room.Ticket, live: Room.Keys)
    requires live.Has(t.sid)
    ensures Room.Batch([t], live, 1) == ([t], [])
  {
    assert [t][1..] == [];
    assert Room.Batch([], live, 0) == ([], []);
    assert [t] + [] == [t];
  }

  /** The three kinds of keys of one room never coincide, whatever its event is called. */
  lemma RoomKeysApart(event: string, s: string, t: string)
    ensures QueueKey(event) != HeartbeatKey(event, s) && QueueKey(event) != AdmissionKey(event, t)
    ensures HeartbeatKey(event, s) != AdmissionKey(event, t)
  {
    var n := |"room:"| + |event| + 1;
    assert QueueKey(event)[n] == 'q';
    assert HeartbeatKey(event, s)[n] == 'h';
    assert AdmissionKey(event, t)[n] == 'a';
  }

  /** Tokens are single use in every run exactly for the sessions whose key nobody shares. */
  lemma SingleUseIff(c: Settings, now: int, event: string, sid: string)
    ensures (forall acts :: Consumed(c, Fresh(now), acts, event, sid) <= Issued(c, Fresh(now), acts, event, sid)) <==>
            !SharesKey(event, sid)
  {
    if SharesKey(event, sid) {
      var e, x :| HeartbeatKey(e, x) == AdmissionKey(event, sid)
                  || (AdmissionKey(e, x) == AdmissionKey(event, sid) && (e, x) != (event, sid));
      if HeartbeatKey(e, x) == AdmissionKey(event, sid) {
        var acts := HeartbeatAdmits(c, now, event, sid, e, x);
      } else {
        var acts := OthersTokenAdmits(c, now, event, sid, e, x);
      }
    } else {
      forall acts
        ensures Consumed(c, Fresh(now), acts, event, sid) <= Issued(c, Fresh(now), acts, event, sid)
      {
        SingleUse(c, Fresh(now), acts, event, sid);
      }
    }
  }

  lemma {:induction false} GrantedElsewhere(entries: Entries, event: string, out: seq<Room.Ticket>, until: int)
    ensures QueueKey(event) in Granted(entries, event, out, until) <==> QueueKey(event) in entries
  {
    if out != [] {
      var n := |out| - 1;
      GrantedElsewhere(entries, event, out[..n], until);
      RoomKeysApart(event, out[n].sid, out[n].sid);
    }
  }

  /** A room whose batch pops the last session has no queue any more, so that a worker for all
      events does not find it. */
  lemma DrainedQueueIsGone(c: Settings, s: Store, event: string, rate: int)
    requires QueueAt(s, event).Some?
    ensures QueueKey(event) in Ticked(c, s, event, rate).entries <==> BatchOf(s, event, rate).1 != []
  {
    var (out, rest) := BatchOf(s, event, rate);
    GrantedElsewhere(PutQueue(s.entries, event, rest), event, out, s.now + Room.BatchTTL(c));
  }

  // ---- independent rooms

  /** The key is one of the room's. */
  ghost predicate OfRoom(key: string, event: string) {
    key == QueueKey(event) || exists sid :: key == HeartbeatKey(event, sid) || key == AdmissionKey(event, sid)
  }

  predicate Same(entries: Entries, entries': Entries, key: string) {
    (key in entries <==> key in entries') && (key in entries ==> entries[key] == entries'[key])
  }

  lemma {:induction false} GrantedWithin(entries: Entries, event: string, out: seq<Room.Ticket>, until: int, key: string)
    ensures Same(entries, Granted(entries, event, out, until), key) || OfRoom(key, event)
  {
    if out != [] {
      var n := |out| - 1;
      GrantedWithin(entries, event, out[..n], until, key);
      assert key == AdmissionKey(event, out[n].sid) ==> OfRoom(key, event);
    }
  }

  lemma PutWithin(entries: Entries, event: string, q: seq<Room.Ticket>, key: string)
    ensures Same(entries, PutQueue(entries, event, q), key) || OfRoom(key, event)
  {
  }

  lemma TickWithin(c: Settings, s: Store, event: string, rate: int, key: string)
    ensures Same(s.entries, Ticked(c, s, event, rate).entries, key) || OfRoom(key, event)
  {
    if QueueAt(s, event).Some? {
      var (out, rest) := BatchOf(s, event, rate);
      PutWithin(s.entries, event, rest, key);
      GrantedWithin(PutQueue(s.entries, event, rest), event, out, s.now + Room.BatchTTL(c), key);
    }
  }

  lemma EnterWithin(c: Settings, s: Store, event: string, sid: string, score: int, key: string)
    ensures Same(s.entries, Entered(c, s, event, sid, score).entries, key) || OfRoom(key, event)
  {
    var s1 := Beaten(c, s, event, sid);
    assert Same(s.entries, s1.entries, key) || key == HeartbeatKey(event, sid);
    if q :| QueueAt(s1, event) == Some(q) {
      PutWithin(s1.entries, event, Room.Insert(q, Room.Ticket(score, sid)), key);
    }
  }

  /** A step changes keys of its own room only. */
  lemma StepStaysWithin(c: Settings, s: Store, a: Action, key: string)
    requires !a.Advance?
    ensures Same(s.entries, Apply(c, s, a).entries, key) || OfRoom(key, a.event)
  {
    if a.Tick? {
      TickWithin(c, s, a.event, a.rate, key);
    } else if a.Enter? {
      EnterWithin(c, s, a.event, a.sid, a.score, key);
    } else if a.Heartbeat? {
      assert Same(s.entries, Beaten(c, s, a.event, a.sid).entries, key) || key == HeartbeatKey(a.event, a.sid);
    } else {
      assert Same(s.entries, Apply(c, s, a).entries, key) || key == AdmissionKey(a.event, a.sid);
    }
  }

  lemma ApartKeys(b: string, e: string, key: string)
    requires ':' !in b && ':' !in e && b != e && OfRoom(key, b)
    ensures !OfRoom(key, e)
  {
    QueueKeyParts(b);
    QueueKeyParts(e);
    if key == QueueKey(b) {
      forall y
        ensures key != HeartbeatKey(e, y) && key != AdmissionKey(e, y)
      {
        RoomsAreApart(b, "", e, y);
      }
    } else {
      var x :| key == HeartbeatKey(b, x) || key == AdmissionKey(b, x);
      SessionKeyApart(b, x, e, key);
    }
  }

  lemma SessionKeyApart(b: string, x: string, e: string, key: string)
    requires ':' !in b && ':' !in e && b != e && (key == HeartbeatKey(b, x) || key == AdmissionKey(b, x))
    ensures !OfRoom(key, e)
  {
    RoomsAreApart(e, "", b, x);
    forall y
      ensures key != HeartbeatKey(e, y) && key != AdmissionKey(e, y)
    {
      RoomsAreApart(b, x, e, y);
      RoomsAreApart(e, y, b, x);
    }
  }

  ghost predicate SameValue(entries: Entries, key: string, times: map<string, int>, sid: string) {
    (sid in times <==> key in entries) && (sid in times ==> entries[key] == Value(times[sid]))
  }

  ghost predicate MirrorsQueue(entries: Entries, event: string, q: seq<Room.Ticket>) {
    var key := QueueKey(event);
    (key in entries ==> entries[key].Zset?) && q == if key in entries && entries[key].Zset? then entries[key].members else []
  }

  ghost predicate MirrorsHeartbeats(entries: Entries, event: string, heartbeats: map<string, int>) {
    forall sid :: SameValue(entries, HeartbeatKey(event, sid), heartbeats, sid)
  }

  ghost predicate MirrorsTokens(entries: Entries, event: string, tokens: map<string, int>) {
    forall sid :: SameValue(entries, AdmissionKey(event, sid), tokens, sid)
  }

  ghost predicate MirrorsChecked(all: multiset<(string, string)>, event: string, checked: multiset<string>) {
    forall sid :: checked[sid] == all[(event, sid)]
  }

  /** The room by itself is what the store holds under its keys. */
  ghost predicate Mirrors(s: Store, event: string, r: Room.State) {
    && r.now == s.now && MirrorsQueue(s.entries, event, r.queue) && MirrorsHeartbeats(s.entries, event, r.heartbeats)
    && MirrorsTokens(s.entries, event, r.tokens) && MirrorsChecked(s.checked, event, r.checked)
  }

  /** What a step of the store is to one room: a step of its own, or none. */
  function OwnStep(a: Action, event: string): Option<Room.Action> {
    match a
    case Advance(to) => Some(Room.Advance(to))
    case Enter(e, sid, score) => if e == event then Some(Room.Join(sid, score)) else None
    case Heartbeat(e, sid) => if e == event then Some(Room.Heartbeat(sid)) else None
    case Tick(e, rate) => if e == event then Some(Room.Tick(rate)) else None
    case AdmitCheck(e, sid) => if e == event then Some(Room.AdmitCheck(sid)) else None
    case AdmitSet(e, sid) => if e == event then Some(Room.AdmitSet(sid)) else None
    case Consume(e, sid) => if e == event then Some(Room.Consume(sid)) else None
  }

  function Stepped(c: Settings, r: Room.State, own: Option<Room.Action>): Room.State {
    match own case None => r case Some(a) => Room.Apply(c, r, a)
  }

  /** The room's part of a run. */
  function Own(acts: seq<Action>, event: string): seq<Room.Action> {
    if acts == [] then []
    else Own(acts[..|acts| - 1], event) + match OwnStep(acts[|acts| - 1], event) case None => [] case Some(a) => [a]
  }

  lemma OtherRoomsStep(c: Settings, s: Store, a: Action, event: string, r: Room.State)
    requires ':' !in event && !a.Advance? && ':' !in a.event && a.event != event && Mirrors(s, event, r)
    ensures Mirrors(Apply(c, s, a), event, r)
  {
    var s' := Apply(c, s, a);
    forall key | OfRoom(key, event)
      ensures Same(s.entries, s'.entries, key)
    {
      StepStaysWithin(c, s, a, key);
      if OfRoom(key, a.event) { ApartKeys(a.event, event, key); }
    }
    assert OfRoom(QueueKey(event), event);
    forall sid
      ensures SameValue(s'.entries, HeartbeatKey(event, sid), r.heartbeats, sid)
      ensures SameValue(s'.entries, AdmissionKey(event, sid), r.tokens, sid)
    {
      assert OfRoom(HeartbeatKey(event, sid), event) && OfRoom(AdmissionKey(event, sid), event);
      assert SameValue(s.entries, HeartbeatKey(event, sid), r.heartbeats, sid);
      assert SameValue(s.entries, AdmissionKey(event, sid), r.tokens, sid);
    }
  }

  /** Within one room the session ids tell keys of one kind apart. */
  lemma SidsApart(event: string, x: string, y: string)
    ensures HeartbeatKey(event, x) == HeartbeatKey(event, y) ==> x == y
    ensures AdmissionKey(event, x) == AdmissionKey(event, y) ==> x == y
  {
    TextOf(event, x);
    TextOf(event, y);
    assert HeartbeatKey(event, x)[|"room:" + event + ":hb:"|..] == x;
    assert HeartbeatKey(event, y)[|"room:" + event + ":hb:"|..] == y;
    assert AdmissionKey(event, x)[|"room:" + event + ":admitted:"|..] == x;
    assert AdmissionKey(event, y)[|"room:" + event + ":admitted:"|..] == y;
  }

  lemma BeatMirrors(entries: Entries, event: string, heartbeats: map<string, int>, tokens: map<string, int>, sid: string, until: int)
    requires MirrorsHeartbeats(entries, event, heartbeats) && MirrorsTokens(entries, event, tokens)
    ensures var entries' := entries[HeartbeatKey(event, sid) := Value(until)];
      MirrorsHeartbeats(entries', event, heartbeats[sid := until]) && MirrorsTokens(entries', event, tokens)
  {
    var entries' := entries[HeartbeatKey(event, sid) := Value(until)];
    forall x
      ensures SameValue(entries', HeartbeatKey(event, x), heartbeats[sid := until], x)
      ensures SameValue(entries', AdmissionKey(event, x), tokens, x)
    {
      SidsApart(event, sid, x);
      RoomKeysApart(event, sid, x);
      assert SameValue(entries, HeartbeatKey(event, x), heartbeats, x) && SameValue(entries, AdmissionKey(event, x), tokens, x);
    }
  }

  lemma PutMirrors(entries: Entries, event: string, heartbeats: map<string, int>, tokens: map<string, int>, q: seq<Room.Ticket>)
    requires MirrorsHeartbeats(entries, event, heartbeats) && MirrorsTokens(entries, event, tokens)
    ensures var entries' := PutQueue(entries, event, q);
      MirrorsHeartbeats(entries', event, heartbeats) && MirrorsTokens(entries', event, tokens) && MirrorsQueue(entries', event, q)
  {
    var entries' := PutQueue(entries, event, q);
    forall x
      ensures SameValue(entries', HeartbeatKey(event, x), heartbeats, x)
      ensures SameValue(entries', AdmissionKey(event, x), tokens, x)
    {
      RoomKeysApart(event, x, x);
      assert SameValue(entries, HeartbeatKey(event, x), heartbeats, x) && SameValue(entries, AdmissionKey(event, x), tokens, x);
    }
  }

  lemma TokenMirrors(entries: Entries, event: string, heartbeats: map<string, int>, tokens: map<string, int>, q: seq<Room.Ticket>,
                     sid: string, until: int)
    requires MirrorsHeartbeats(entries, event, heartbeats) && MirrorsTokens(entries, event, tokens) && MirrorsQueue(entries, event, q)
    ensures var entries' := entries[AdmissionKey(event, sid) := Value(until)];
      MirrorsHeartbeats(entries', event, heartbeats) && MirrorsTokens(entries', event, tokens[sid := until])
      && MirrorsQueue(entries', event, q)
  {
    var entries' := entries[AdmissionKey(event, sid) := Value(until)];
    forall x
      ensures SameValue(entries', HeartbeatKey(event, x), heartbeats, x)
      ensures SameValue(entries', AdmissionKey(event, x), tokens[sid := until], x)
      ensures QueueKey(event) != AdmissionKey(event, sid)
    {
      SidsApart(event, sid, x);
      RoomKeysApart(event, x, sid);
      assert SameValue(entries, HeartbeatKey(event, x), heartbeats, x) && SameValue(entries, AdmissionKey(event, x), tokens, x);
    }
  }

  lemma {:induction false} GrantedMirrors(entries: Entries, event: string, heartbeats: map<string, int>, tokens: map<string, int>,
                                          q: seq<Room.Ticket>, out: seq<Room.Ticket>, until: int)
    requires MirrorsHeartbeats(entries, event, heartbeats) && MirrorsTokens(entries, event, tokens) && MirrorsQueue(entries, event, q)
    ensures var entries' := Granted(entries, event, out, until);
      MirrorsHeartbeats(entries', event, heartbeats) && MirrorsTokens(entries', event, Room.Granted(tokens, out, until))
      && MirrorsQueue(entries', event, q)
  {
    if out != [] {
      var n := |out| - 1;
      GrantedMirrors(entries, event, heartbeats, tokens, q, out[..n], until);
      TokenMirrors(Granted(entries, event, out[..n], until), event, heartbeats, Room.Granted(tokens, out[..n], until), q,
                   out[n].sid, until);
    }
  }

  lemma {:induction false} BatchSame(q: seq<Room.Ticket>, live: Room.Keys, live': Room.Keys, rate: int)
    requires forall t :: t in q ==> live.Has(t.sid) == live'.Has(t.sid)
    ensures Room.Batch(q, live, rate) == Room.Batch(q, live', rate)
  {
    if q != [] {
      assert q[0] in q && forall t :: t in q[1..] ==> t in q;
      BatchSame(q[1..], live, live', rate);
      BatchSame(q[1..], live, live', rate - 1);
    }
  }

  lemma BatchMirrors(s: Store, event: string, r: Room.State, rate: int)
    requires Mirrors(s, event, r)
    ensures QueueAt(s, event) == Some(r.queue) && BatchOf(s, event, rate) == Room.Batch(r.queue, Room.Live(r), rate)
  {
    var live := LiveIn(s, event, r.queue);
    forall t | t in r.queue
      ensures live.Has(t.sid) == Room.Live(r).Has(t.sid)
    {
      assert t.sid in Room.Sids(r.queue) && SameValue(s.entries, HeartbeatKey(event, t.sid), r.heartbeats, t.sid);
    }
    BatchSame(r.queue, live, Room.Live(r), rate);
  }

  lemma OwnTick(c: Settings, s: Store, event: string, rate: int, r: Room.State)
    requires Mirrors(s, event, r)
    ensures Mirrors(Ticked(c, s, event, rate), event, Room.Ticked(c, r, rate))
  {
    BatchMirrors(s, event, r, rate);
    var (out, rest) := BatchOf(s, event, rate);
    PutMirrors(s.entries, event, r.heartbeats, r.tokens, rest);
    GrantedMirrors(PutQueue(s.entries, event, rest), event, r.heartbeats, r.tokens, rest, out, s.now + Room.BatchTTL(c));
  }

  lemma OwnEnter(c: Settings, s: Store, event: string, sid: string, score: int, r: Room.State)
    requires Mirrors(s, event, r)
    ensures Mirrors(Entered(c, s, event, sid, score), event, Room.Apply(c, r, Room.Join(sid, score)))
  {
    OwnBeat(c, s, event, sid, r);
    var s1 := Beaten(c, s, event, sid);
    var q := Room.Insert(r.queue, Room.Ticket(score, sid));
    PutMirrors(s1.entries, event, r.heartbeats[sid := s.now + c.heartbeat], r.tokens, q);
  }

  lemma OwnBeat(c: Settings, s: Store, event: string, sid: string, r: Room.State)
    requires Mirrors(s, event, r)
    ensures Mirrors(Beaten(c, s, event, sid), event, Room.Apply(c, r, Room.Heartbeat(sid)))
  {
    BeatMirrors(s.entries, event, r.heartbeats, r.tokens, sid, s.now + c.heartbeat);
    RoomKeysApart(event, sid, sid);
  }

  lemma OwnCheck(c: Settings, s: Store, event: string, sid: string, r: Room.State)
    requires Mirrors(s, event, r)
    ensures Mirrors(Apply(c, s, AdmitCheck(event, sid)), event, Room.Apply(c, r, Room.AdmitCheck(sid)))
  {
    assert SameValue(s.entries, HeartbeatKey(event, sid), r.heartbeats, sid);
    assert Exists(s, HeartbeatKey(event, sid)) == Room.Live(r).Has(sid);
  }

  lemma OneLess(all: multiset<(string, string)>, event: string, checked: multiset<string>, sid: string)
    requires MirrorsChecked(all, event, checked)
    ensures MirrorsChecked(all - multiset{(event, sid)}, event, checked - multiset{sid})
  {
    forall x
      ensures (checked - multiset{sid})[x] == (all - multiset{(event, sid)})[(event, x)]
    {
      assert checked[x] == all[(event, x)];
    }
  }

  lemma SetMirrors(c: Settings, s: Store, event: string, sid: string, r: Room.State, s': Store, r': Room.State)
    requires Mirrors(s, event, r) && MirrorsChecked(s'.checked, event, r'.checked)
    requires s'.entries == s.entries[AdmissionKey(event, sid) := Value(s.now + c.admission)] && s'.now == s.now
    requires r' == r.(tokens := r.tokens[sid := s.now + c.admission], checked := r'.checked)
    ensures Mirrors(s', event, r')
  {
    TokenMirrors(s.entries, event, r.heartbeats, r.tokens, r.queue, sid, s.now + c.admission);
  }

  lemma SetIs(c: Settings, s: Store, event: string, sid: string, r: Room.State, s': Store, r': Room.State)
    requires (event, sid) in s.checked && sid in r.checked && r.now == s.now
    requires s' == Apply(c, s, AdmitSet(event, sid)) && r' == Room.Apply(c, r, Room.AdmitSet(sid))
    ensures s' == s.(checked := s.checked - multiset{(event, sid)},
                     entries := s.entries[AdmissionKey(event, sid) := Value(s.now + c.admission)])
    ensures r' == r.(checked := r.checked - multiset{sid}, tokens := r.tokens[sid := s.now + c.admission])
  {
  }

  lemma OwnSet(c: Settings, s: Store, event: string, sid: string, r: Room.State, s': Store, r': Room.State)
    requires Mirrors(s, event, r)
    requires s' == Apply(c, s, AdmitSet(event, sid)) && r' == Room.Apply(c, r, Room.AdmitSet(sid))
    ensures Mirrors(s', event, r')
  {
    if r.checked[sid] > 0 {
      SetIs(c, s, event, sid, r, s', r');
      OneLess(s.checked, event, r.checked, sid);
      SetMirrors(c, s, event, sid, r, s', r');
    } else {
      assert s' == s && r' == r;
    }
  }

  lemma OwnConsume(c: Settings, s: Store, event: string, sid: string, r: Room.State)
    requires Mirrors(s, event, r)
    ensures Mirrors(Apply(c, s, Consume(event, sid)), event, Room.Apply(c, r, Room.Consume(sid)))
    ensures Consumes(s, Consume(event, sid)) <==> Room.Consumes(r, Room.Consume(sid))
  {
    assert SameValue(s.entries, AdmissionKey(event, sid), r.tokens, sid);
    var entries' := s.entries - {AdmissionKey(event, sid)};
    forall x
      ensures SameValue(entries', HeartbeatKey(event, x), r.heartbeats, x)
      ensures SameValue(entries', AdmissionKey(event, x), r.tokens - {sid}, x)
      ensures QueueKey(event) != AdmissionKey(event, sid)
    {
      SidsApart(event, sid, x);
      RoomKeysApart(event, x, sid);
      assert SameValue(s.entries, HeartbeatKey(event, x), r.heartbeats, x) && SameValue(s.entries, AdmissionKey(event, x), r.tokens, x);
    }
  }

  lemma OwnRoomSteps(c: Settings, s: Store, a: Action, event: string, r: Room.State)
    requires !a.Advance? && a.event == event && Mirrors(s, event, r)
    ensures Mirrors(Apply(c, s, a), event, Stepped(c, r, OwnStep(a, event)))
  {
    match a
    case Enter(_, sid, score) => OwnEnter(c, s, event, sid, score, r);
    case Heartbeat(_, sid) => OwnBeat(c, s, event, sid, r);
    case Tick(_, rate) => OwnTick(c, s, event, rate, r);
    case Consume(_, sid) => OwnConsume(c, s, event, sid, r);
    case AdmitCheck(_, sid) => OwnCheck(c, s, event, sid, r);
    case AdmitSet(_, sid) => OwnSet(c, s, event, sid, r, Apply(c, s, a), Room.Apply(c, r, Room.AdmitSet(sid)));
  }

  lemma RoomSteps(c: Settings, s: Store, a: Action, event: string, r: Room.State)
    requires ':' !in event && (!a.Advance? ==> ':' !in a.event) && Mirrors(s, event, r)
    ensures Mirrors(Apply(c, s, a), event, Stepped(c, r, OwnStep(a, event)))
  {
    if !a.Advance? {
      if a.event == event {
        OwnRoomSteps(c, s, a, event, r);
      } else {
        OtherRoomsStep(c, s, a, event, r);
      }
    }
  }

  predicate ColonFree(acts: seq<Action>) { forall k | 0 <= k < |acts| :: !acts[k].Advance? ==> ':' !in acts[k].event }

  lemma RunOneAlone(c: Settings, r: Room.State, own: seq<Room.Action>, a: Room.Action)
    ensures Room.Run(c, r, own + [a]) == Room.Apply(c, Room.Run(c, r, own), a)
    ensures Room.Admitted(c, r, own + [a]) == Room.Admitted(c, r, own) + Room.AdmittedBy(Room.Run(c, r, own), a)
  {
    assert (own + [a])[..|own|] == own;
  }

  lemma OwnRun(c: Settings, r: Room.State, acts: seq<Action>, event: string)
    requires acts != []
    ensures var n := |acts| - 1;
      Room.Run(c, r, Own(acts, event)) == Stepped(c, Room.Run(c, r, Own(acts[..n], event)), OwnStep(acts[n], event))
  {
    var own, a := Own(acts[..|acts| - 1], event), OwnStep(acts[|acts| - 1], event);
    if a.Some? {
      RunOneAlone(c, r, own, a.value);
    } else {
      assert own + [] == own;
    }
  }

  /** As long as no event has a colon in its name, every room of the store goes through the
      states of a room that is alone, so what holds of `WaitingRoom` holds of each. */
  lemma {:induction false} RoomsRunApart(c: Settings, s: Store, acts: seq<Action>, event: string, r: Room.State)
    requires ':' !in event && ColonFree(acts) && Mirrors(s, event, r)
    ensures Mirrors(Run(c, s, acts), event, Room.Run(c, r, Own(acts, event)))
  {
    if acts != [] {
      var n := |acts| - 1;
      RoomsRunApart(c, s, acts[..n], event, r);
      OwnRun(c, r, acts, event);
      RoomSteps(c, Run(c, s, acts[..n]), acts[n], event, Room.Run(c, r, Own(acts[..n], event)));
    }
  }

  /** The tickets that the batches of one room admit. */
  function AdmittedIn(c: Settings, s: Store, acts: seq<Action>, event: string): seq<Room.Ticket> {
    if acts == [] then []
    else AdmittedIn(c, s, acts[..|acts| - 1], event) + AdmittedBy(Run(c, s, acts[..|acts| - 1]), acts[|acts| - 1], event)
  }

  function AdmittedBy(s: Store, a: Action, event: string): seq<Room.Ticket> {
    if a.Tick? && a.event == event then BatchOf(s, event, a.rate).0 else []
  }

  function AdmittedAlone(r: Room.State, own: Option<Room.Action>): seq<Room.Ticket> {
    match own case None => [] case Some(a) => Room.AdmittedBy(r, a)
  }

  lemma AdmitsSame(s: Store, a: Action, event: string, r: Room.State)
    requires Mirrors(s, event, r)
    ensures AdmittedBy(s, a, event) == AdmittedAlone(r, OwnStep(a, event))
  {
    if a.Tick? { BatchMirrors(s, event, r, a.rate); }
  }

  lemma AdmitsOwn(c: Settings, r: Room.State, acts: seq<Action>, event: string)
    requires acts != []
    ensures var n := |acts| - 1;
      Room.Admitted(c, r, Own(acts, event)) == Room.Admitted(c, r, Own(acts[..n], event)) +
        AdmittedAlone(Room.Run(c, r, Own(acts[..n], event)), OwnStep(acts[n], event))
  {
    var own, a := Own(acts[..|acts| - 1], event), OwnStep(acts[|acts| - 1], event);
    if a.Some? {
      RunOneAlone(c, r, own, a.value);
    } else {
      assert own + [] == own;
    }
  }

  /** And it admits the same tickets in the same order. */
  lemma {:induction false} RoomsAdmitApart(c: Settings, s: Store, acts: seq<Action>, event: string, r: Room.State)
    requires ':' !in event && ColonFree(acts) && Mirrors(s, event, r)
    ensures AdmittedIn(c, s, acts, event) == Room.Admitted(c, r, Own(acts, event))
  {
    if acts != [] {
      var n := |acts| - 1;
      RoomsAdmitApart(c, s, acts[..n], event, r);
      RoomsRunApart(c, s, acts[..n], event, r);
      AdmitsOwn(c, r, acts, event);
      AdmitsSame(Run(c, s, acts[..n]), acts[n], event, Room.Run(c, r, Own(acts[..n], event)));
    }
  }

  /** So every room starts, and nobody is overtaken in any of them. */
  lemma NoOvertakingInAnyRoom(c: Settings, now: int, joins: seq<Action>, acts: seq<Action>, event: string, s: Store, t: Room.Ticket)
    requires ':' !in event && ColonFree(joins) && ColonFree(acts) && s == Run(c, Fresh(now), joins)
    requires QueueAt(s, event).Some? && t in QueueAt(s, event).value && t !in AdmittedIn(c, s, acts, event)
    requires var r := Room.Run(c, Room.State([], map[], map[], multiset{}, now), Own(joins, event));
      Room.LiveThroughout(c, r, Own(acts, event), t.sid)
    ensures forall u :: u in AdmittedIn(c, s, acts, event) ==> Room.Before(u, t)
  {
    var r0 := Room.State([], map[], map[], multiset{}, now);
    var r := Room.Run(c, r0, Own(joins, event));
    RoomsRunApart(c, Fresh(now), joins, event, r0);
    BatchMirrors(s, event, r, 0);
    RoomsAdmitApart(c, s, acts, event, r);
    Room.RunOrdered(c, r0, Own(joins, event));
    Room.NoOvertaking(c, r, Own(acts, event), t);
  }
}
