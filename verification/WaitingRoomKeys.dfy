/** The Redis key names of waiting rooms, and the rooms that a worker for all events serves
    (internal/waitingroom/room.go and worker.go). */
module WaitingRoomKeys {
  import opened Common
  import opened KeyText

  function QueueKey(event: string): string { Join("room", Join(event, "queue")) }

  function HeartbeatKey(event: string, sid: string): string { Join("room", Join(event, Join("hb", sid))) }

  function AdmissionKey(event: string, sid: string): string { Join("room", Join(event, Join("admitted", sid))) }

  /** The key of a queue splits into three parts exactly when the event has no colon, and the
      middle part is then the event. */
  lemma QueueKeyParts(event: string)
    ensures |Split(QueueKey(event))| == 3 <==> ':' !in event
    ensures ':' !in event ==> Split(QueueKey(event))[1] == event
  {
    ThreeParts("room", event, "queue");
  }

  lemma ThreeParts(head: string, event: string, tail: string)
    requires ':' !in head && ':' !in tail
    ensures |Split(Join(head, Join(event, tail)))| == 3 <==> ':' !in event
    ensures ':' !in event ==> Split(Join(head, Join(event, tail)))[1] == event
  {
    SplitHead(head, Join(event, tail));
    SplitLength(event, tail);
    if ':' !in event {
      SplitHead(event, tail);
    } else {
      assert |Split(event)| > 1;
    }
  }

  /** The replies to KEYS room:*:queue. */
  ghost predicate Matches(key: string) {
    exists event :: key == QueueKey(event)
  }

  function Served(keys: seq<string>): seq<string> {
    if keys == [] then []
    else
      var parts := Split(keys[|keys| - 1]);
      Served(keys[..|keys| - 1]) + if |parts| == 3 then [parts[1]] else []
  }

  /** A worker for all events serves exactly the rooms whose event has no colon: a room of an
      event with a colon in its name is never served. */
  lemma {:induction false} ServesColonFreeRooms(keys: seq<string>, event: string)
    requires forall k :: k in keys ==> Matches(k)
    ensures event in Served(keys) <==> QueueKey(event) in keys && ':' !in event
  {
    if keys != [] {
      var before, key := keys[..|keys| - 1], keys[|keys| - 1];
      assert keys == before + [key];
      ServesColonFreeRooms(before, event);
      assert Matches(key);
      var e :| key == QueueKey(e);
      QueueKeyParts(e);
      QueueKeyParts(event);
    }
  }

  /** The rooms one tick goes through; the worker of a single event goes through that one. */
  method Targets(event: string, keys: Option<seq<string>>) returns (events: seq<string>)
    ensures event != "*" && event != "" ==> events == [event]
    ensures event == "*" || event == "" ==> events == match keys case None => [] case Some(ks) => Served(ks)
  {
    events := [];
    if event == "*" || event == "" {
      if keys.Some? {
        var ks := keys.value;
        for n := 0 to |ks|
          invariant events == Served(ks[..n])
        {
          assert ks[..n + 1][..n] == ks[..n];
          var parts := Split(ks[n]);
          if |parts| == 3 {
            events := events + [parts[1]];
          }
        }
        assert ks[..|ks|] == ks;
      }
    } else {
      events := [event];
    }
  }

  lemma Parts(event: string, kind: string, sid: string)
    requires ':' !in event && ':' !in kind
    ensures Split(Join("room", Join(event, Join(kind, sid)))) == ["room", event, kind] + Split(sid)
  {
    var rest := Join(kind, sid);
    SplitHead("room", Join(event, rest));
    SplitHead(event, rest);
    SplitHead(kind, sid);
    ThreeAndRest("room", event, kind, Split(sid));
  }

  lemma ThreeAndRest(a: string, b: string, c: string, rest: seq<string>)
    ensures [a] + ([b] + ([c] + rest)) == [a, b, c] + rest
  {
  }

  lemma SameKey(e1: string, k1: string, s1: string, e2: string, k2: string, s2: string)
    requires ':' !in e1 && ':' !in e2 && ':' !in k1 && ':' !in k2
    requires Join("room", Join(e1, Join(k1, s1))) == Join("room", Join(e2, Join(k2, s2)))
    ensures e1 == e2 && k1 == k2 && s1 == s2
  {
    Parts(e1, k1, s1);
    Parts(e2, k2, s2);
    var p1, p2 := ["room", e1, k1] + Split(s1), ["room", e2, k2] + Split(s2);
    assert p1[1] == p2[1] && p1[2] == p2[2];
    SameTail("room", Join(e1, Join(k1, s1)), Join(e2, Join(k2, s2)));
    SameTail(e1, Join(k1, s1), Join(k2, s2));
    SameTail(k1, s1, s2);
  }

  /** Rooms of colon-free events share no key, whatever the session ids: they are independent. */
  lemma RoomsAreApart(e1: string, s1: string, e2: string, s2: string)
    requires ':' !in e1 && ':' !in e2
    ensures HeartbeatKey(e1, s1) == HeartbeatKey(e2, s2) <==> e1 == e2 && s1 == s2
    ensures AdmissionKey(e1, s1) == AdmissionKey(e2, s2) <==> e1 == e2 && s1 == s2
    ensures HeartbeatKey(e1, s1) != AdmissionKey(e2, s2)
    ensures QueueKey(e1) != HeartbeatKey(e2, s2) && QueueKey(e1) != AdmissionKey(e2, s2)
  {
    if HeartbeatKey(e1, s1) == HeartbeatKey(e2, s2) { SameKey(e1, "hb", s1, e2, "hb", s2); }
    if AdmissionKey(e1, s1) == AdmissionKey(e2, s2) { SameKey(e1, "admitted", s1, e2, "admitted", s2); }
    if HeartbeatKey(e1, s1) == AdmissionKey(e2, s2) { SameKey(e1, "hb", s1, e2, "admitted", s2); }
    QueueKeyParts(e1);
    Parts(e2, "hb", s2);
    Parts(e2, "admitted", s2);
  }

  // ---- rooms that share a key

  /** With colons in event names rooms may share keys: these two share a heartbeat. */
  lemma RoomsMayAlias(e: string, s: string, t: string)
    ensures HeartbeatKey(Join(e, Join("hb", s)), t) == HeartbeatKey(e, Join(s, Join("hb", t)))
  {
    var x, y := Join(e, Join("hb", s)), Join(s, Join("hb", t));
    assert Join(x, Join("hb", t)) == Join(e, Join("hb", y));
  }

  function SessionKey(event: string, kind: string, sid: string): string { Join("room", Join(event, Join(kind, sid))) }

  /** What a session id is appended to, after "room:". */
  function Stem(event: string, kind: string): string { Join(event, kind) + ":" }

  lemma StemThenSid(event: string, kind: string, sid: string)
    ensures SessionKey(event, kind, sid) == Join("room", Stem(event, kind) + sid)
  {
    assert Join(event, Join(kind, sid)) == Stem(event, kind) + sid;
  }

  lemma SharePrefix(a: string, s: string, b: string, t: string)
    requires a + s == b + t && |a| <= |b|
    ensures a <= b
  {
    assert a == (a + s)[..|a|] == (b + t)[..|a|] == b[..|a|];
  }

  /** Some sessions of two rooms share a key exactly when one stem is a prefix of the other. */
  lemma SharedKeyIff(e1: string, k1: string, e2: string, k2: string)
    ensures (exists s1, s2 :: SessionKey(e1, k1, s1) == SessionKey(e2, k2, s2)) <==>
            Stem(e1, k1) <= Stem(e2, k2) || Stem(e2, k2) <= Stem(e1, k1)
  {
    var a, b := Stem(e1, k1), Stem(e2, k2);
    if s1, s2 :| SessionKey(e1, k1, s1) == SessionKey(e2, k2, s2) {
      StemThenSid(e1, k1, s1);
      StemThenSid(e2, k2, s2);
      SameTail("room", a + s1, b + s2);
      if |a| <= |b| { SharePrefix(a, s1, b, s2); } else { SharePrefix(b, s2, a, s1); }
    }
    if a <= b {
      PrefixShares(e1, k1, e2, k2);
    }
    if b <= a {
      PrefixShares(e2, k2, e1, k1);
    }
  }

  lemma PrefixShares(e1: string, k1: string, e2: string, k2: string)
    requires Stem(e1, k1) <= Stem(e2, k2)
    ensures exists s1 :: SessionKey(e1, k1, s1) == SessionKey(e2, k2, "")
  {
    var a, b := Stem(e1, k1), Stem(e2, k2);
    assert a + b[|a|..] == b + "";
    StemThenSid(e1, k1, b[|a|..]);
    StemThenSid(e2, k2, "");
    assert SessionKey(e1, k1, b[|a|..]) == SessionKey(e2, k2, "");
  }

  /** Two rooms can share heartbeats, or admissions, exactly when one event with the kind's
      infix is a prefix of the other so extended; a heartbeat of one can be an admission of the
      other under the mixed condition. */
  lemma RoomsAliasIff(e1: string, e2: string)
    ensures (exists s1, s2 :: HeartbeatKey(e1, s1) == HeartbeatKey(e2, s2)) <==>
            e1 + ":hb:" <= e2 + ":hb:" || e2 + ":hb:" <= e1 + ":hb:"
    ensures (exists s1, s2 :: AdmissionKey(e1, s1) == AdmissionKey(e2, s2)) <==>
            e1 + ":admitted:" <= e2 + ":admitted:" || e2 + ":admitted:" <= e1 + ":admitted:"
    ensures (exists s1, s2 :: HeartbeatKey(e1, s1) == AdmissionKey(e2, s2)) <==>
            e1 + ":hb:" <= e2 + ":admitted:" || e2 + ":admitted:" <= e1 + ":hb:"
  {
    Stems(e1);
    Stems(e2);
    SharedKeyIff(e1, "hb", e2, "hb");
    SharedKeyIff(e1, "admitted", e2, "admitted");
    SharedKeyIff(e1, "hb", e2, "admitted");
    assert forall e, s :: HeartbeatKey(e, s) == SessionKey(e, "hb", s);
    assert forall e, s :: AdmissionKey(e, s) == SessionKey(e, "admitted", s);
  }

  lemma Stems(e: string)
    ensures Stem(e, "hb") == e + ":hb:" && Stem(e, "admitted") == e + ":admitted:"
  {
  }
}
