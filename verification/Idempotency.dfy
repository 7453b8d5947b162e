/** One idempotency key as internal/middleware/idempotency and claim_idem.lua handle it: the
    record in Redis and any number of concurrent requests that carry the key. Every command
    is one atomic step with an `Outcome`; the record may expire at any time. */
module Idempotency {
  import opened Common
  import Text = KeyText

  const CACHE_LIMIT := 1_048_576

  function Cap(body: string): string {
    if |body| <= CACHE_LIMIT then body else body[..CACHE_LIMIT]
  }

  // ---- the key of the record

  /** The key is a UUID, which has no colon. */
  function RecordKey(user: string, event: string, key: string): string {
    Text.Join("idem", Text.Join(Text.Join(user, event), key))
  }

  /** Two requests meet the same record exactly when they carry the same key and their users and
      events read the same with a colon in between: user and event then agree as well, unless
      there are colons in user ids. */
  lemma RecordsAreApartIff(user: string, event: string, key: string, user': string, event': string, key': string)
    requires ':' !in key && ':' !in key'
    ensures RecordKey(user, event, key) == RecordKey(user', event', key') <==>
            key == key' && user + ":" + event == user' + ":" + event'
    ensures ':' !in user && ':' !in user' ==>
      (RecordKey(user, event, key) == RecordKey(user', event', key') <==> user == user' && event == event' && key == key')
  {
    var a, b := Text.Join(user, event), Text.Join(user', event');
    if RecordKey(user, event, key) == RecordKey(user', event', key') {
      Text.SameTail("idem", Text.Join(a, key), Text.Join(b, key'));
      Text.SameLastPart(a, key, b, key');
    }
    if a == b && ':' !in user && ':' !in user' {
      Text.SplitHead(user, event);
      Text.SplitHead(user', event');
      assert user == Text.Split(a)[0] == user';
      Text.SameTail(user, event, event');
    }
  }

  /** What is kept of a body: a prefix, of one megabyte at most and all of it up to there. */
  lemma CapIs(body: string)
    ensures Cap(body) <= body && |Cap(body)| == if |body| <= 1_048_576 then |body| else 1_048_576
  {
  }

  // ---- the record

  datatype Status = PENDING | COMPLETED | FAILED

  /** The hash; a missing field is None, and a missing respBody reads as "". */
  datatype Record = Record(status: Status, fingerprint: Option<string>, code: Option<int>, body: string)

  datatype Claim = ACCEPTED | DUPLICATE | MISMATCH

  /** No record, or one that a failed execution left. */
  predicate Claimable(rec: Option<Record>) { rec.None? || rec.value.status == FAILED }

  function ClaimReply(rec: Option<Record>, fp: string): Claim {
    if Claimable(rec) then ACCEPTED
    else if rec.value.fingerprint != Some(fp) then MISMATCH
    else DUPLICATE
  }

  function Claimed(rec: Option<Record>, fp: string): Record {
    match rec
    case None => Record(PENDING, Some(fp), None, "")
    case Some(r) => r.(status := PENDING, fingerprint := Some(fp))
  }

  datatype Response = Response(status: int, body: string)

  predicate Good(r: Response) { r.status < 500 }

  /** HSET after the execution; it also creates a record that has expired meanwhile. */
  function Recorded(rec: Option<Record>, fp: string, r: Response): Record {
    var was := if rec.Some? then rec.value else Record(PENDING, None, None, "");
    if Good(r) then was.(status := COMPLETED, code := Some(r.status), body := Cap(r.body))
    else was.(status := FAILED, fingerprint := Some(fp))
  }

  // ---- requests

  datatype Reply =
    | Executed(response: Response)
    | Replayed(response: Response)
    | Conflict
    | Mismatched
    | Unavailable

  /** `Ended`: the handler has returned, its outcome is not recorded yet. */
  datatype Pc = Claiming | Running | Ended(response: Response) | Looking | Answered(reply: Reply)

  datatype Request = Request(fingerprint: string, pc: Pc)

  /** Bookkeeping for the current lifetime of the record, read by no step; `ran` is for all
      time. `lapsed`: this lifetime began while some request still held an earlier claim. */
  datatype History = History(
    starts: nat,
    setbacks: nat,               // FAILED writes
    good: seq<Response>,         // executions that ended with a status below 500
    replays: set<Response>,
    ran: set<nat>,
    lapsed: bool)

  datatype State = State(rec: Option<Record>, reqs: map<nat, Request>, hist: History)

  const EMPTY := State(None, map[], History(0, 0, [], {}, {}, false))

  datatype Action =
    | Arrive(id: nat, fingerprint: string)
    | Step(id: nat, oc: Outcome, response: Response)
    | Expire

  predicate Busy(s: State, id: nat) {
    id in s.reqs && (s.reqs[id].pc.Running? || s.reqs[id].pc.Ended?)
  }

  function Go(s: State, id: nat, pc: Pc): State
    requires id in s.reqs
  {
    s.(reqs := s.reqs[id := s.reqs[id].(pc := pc)])
  }

  function ClaimStep(s: State, id: nat, oc: Outcome): State
    requires id in s.reqs
  {
    var fp := s.reqs[id].fingerprint;
    var reply := ClaimReply(s.rec, fp);
    var starts := oc.Ok? && reply == ACCEPTED;
    Go(s.(rec := if oc.TookEffect() && reply == ACCEPTED then Some(Claimed(s.rec, fp)) else s.rec,
          hist := s.hist.(starts := if starts then s.hist.starts + 1 else s.hist.starts,
                          ran := if starts then s.hist.ran + {id} else s.hist.ran)),
       id, if !oc.Ok? then Answered(Unavailable)
           else match reply
                case ACCEPTED => Running
                case DUPLICATE => Looking
                case MISMATCH => Answered(Mismatched))
  }

  function EndStep(s: State, id: nat, r: Response): State
    requires id in s.reqs
  {
    Go(s.(hist := s.hist.(good := if Good(r) then s.hist.good + [r] else s.hist.good)), id, Ended(r))
  }

  function RecordStep(s: State, id: nat, r: Response, oc: Outcome): State
    requires id in s.reqs
  {
    var fails := oc.TookEffect() && !Good(r);
    Go(s.(rec := if oc.TookEffect() then Some(Recorded(s.rec, s.reqs[id].fingerprint, r)) else s.rec,
          hist := s.hist.(setbacks := if fails then s.hist.setbacks + 1 else s.hist.setbacks)),
       id, Answered(Executed(r)))
  }

  /** What HGETALL and strconv.Atoi make of the record: a stored body is replayed under its status
      code; without one there is nothing to show. */
  function Shown(rec: Option<Record>): Reply {
    if rec.Some? && rec.value.body != "" then
      Replayed(Response(if rec.value.code.Some? then rec.value.code.value else 0, rec.value.body))
    else Conflict
  }

  function LookStep(s: State, id: nat, oc: Outcome): State
    requires id in s.reqs
  {
    var reply := if oc.Ok? then Shown(s.rec) else Conflict;
    Go(s.(hist := s.hist.(replays := if reply.Replayed? then s.hist.replays + {reply.response} else s.hist.replays)),
       id, Answered(reply))
  }

  /** The record expires: a new lifetime begins unless some request holds the claim. */
  ghost function ExpireStep(s: State): State {
    var held := exists id :: Busy(s, id);
    s.(rec := None,
       hist := if held then s.hist.(lapsed := true)
               else s.hist.(starts := 0, setbacks := 0, good := [], replays := {}, lapsed := false))
  }

  ghost function Apply(s: State, a: Action): State {
    match a
    case Arrive(id, fp) => if id in s.reqs then s else s.(reqs := s.reqs[id := Request(fp, Claiming)])
    case Step(id, oc, r) =>
      if id !in s.reqs then s
      else (match s.reqs[id].pc
            case Claiming => ClaimStep(s, id, oc)
            case Running => EndStep(s, id, r)
            case Ended(response) => RecordStep(s, id, response, oc)
            case Looking => LookStep(s, id, oc)
            case Answered(_) => s)
    case Expire => ExpireStep(s)
  }

  ghost function Run(acts: seq<Action>): State {
    if acts == [] then EMPTY else Apply(Run(acts[..|acts| - 1]), acts[|acts| - 1])
  }

  lemma RunAppend(acts: seq<Action>, a: Action)
    ensures Run(acts + [a]) == Apply(Run(acts), a)
  {
    assert (acts + [a])[..|acts|] == acts;
  }

  // ---- invariants

  /** A request has run downstream exactly when its position says so. */
  predicate Ran(pc: Pc) { pc.Running? || pc.Ended? || (pc.Answered? && pc.reply.Executed?) }

  ghost predicate RanInv(s: State) {
    forall id :: (id in s.hist.ran <==> id in s.reqs && Ran(s.reqs[id].pc))
  }

  /** Where the only claim holder stands. */
  predicate HolderInv(s: State, id: nat)
    requires Busy(s, id)
  {
    && s.rec.Some? && s.rec.value.status == PENDING && s.rec.value.fingerprint == Some(s.reqs[id].fingerprint)
    && s.hist.good == match s.reqs[id].pc
                      case Ended(r) => if Good(r) then [r] else []
                      case _ => []
  }

  predicate RecordInv(s: State) {
    && |s.hist.good| <= 1
    && match s.rec
       case None => s.hist.good == [] && s.hist.setbacks == s.hist.starts == 0
       case Some(Record(status, fp, code, body)) =>
         && fp.Some?
         && (status == FAILED ==> s.hist.good == [])
         && (status == COMPLETED ==> s.hist.good != [] && code == Some(s.hist.good[0].status)
                                     && body == Cap(s.hist.good[0].body))
         && (status != COMPLETED ==> body == "")
         && s.hist.starts <= s.hist.setbacks + if status == FAILED then 0 else 1
  }

  predicate ReplayInv(s: State) {
    forall r :: r in s.hist.replays ==>
      |s.hist.good| == 1 && r == Response(s.hist.good[0].status, Cap(s.hist.good[0].body))
  }

  ghost predicate LifetimeInv(s: State) {
    && (forall id :: Busy(s, id) ==> HolderInv(s, id))
    && (forall i, j :: Busy(s, i) && Busy(s, j) ==> i == j)
    && RecordInv(s)
    && ReplayInv(s)
  }

  ghost predicate Inv(s: State) {
    RanInv(s) && (!s.hist.lapsed ==> LifetimeInv(s))
  }

  /** One request has moved: what has to be shown of the rest of the state. */
  lemma Moved(s: State, id: nat, p: Pc, s': State)
    requires Inv(s) && id in s.reqs && s'.reqs == s.reqs[id := s.reqs[id].(pc := p)]
    requires s'.hist.lapsed == s.hist.lapsed && s'.hist.ran == if Ran(p) then s.hist.ran + {id} else s.hist.ran
    requires Ran(s.reqs[id].pc) ==> Ran(p)
    requires !s.hist.lapsed ==>
      && RecordInv(s') && ReplayInv(s')
      && (Busy(s', id) ==> HolderInv(s', id))
      && ((forall k :: k != id ==> !Busy(s, k))
          || (!Busy(s', id) && s'.rec == s.rec && s'.hist.good == s.hist.good))
    ensures Inv(s')
  {
    forall k
      ensures k in s'.hist.ran <==> k in s'.reqs && Ran(s'.reqs[k].pc)
    {
      assert k in s.hist.ran <==> k in s.reqs && Ran(s.reqs[k].pc);
    }
    if !s.hist.lapsed {
      forall k | Busy(s', k)
        ensures HolderInv(s', k) && forall j :: Busy(s', j) ==> j == k
      {
        Alone(s, id, p, s', k);
      }
    }
  }

  lemma Alone(s: State, id: nat, p: Pc, s': State, k: nat)
    requires LifetimeInv(s) && id in s.reqs && s'.reqs == s.reqs[id := s.reqs[id].(pc := p)] && Busy(s', k)
    requires Busy(s', id) ==> HolderInv(s', id)
    requires (forall k :: k != id ==> !Busy(s, k)) || (!Busy(s', id) && s'.rec == s.rec && s'.hist.good == s.hist.good)
    ensures HolderInv(s', k) && forall j :: Busy(s', j) ==> j == k
  {
    assert forall j :: j != id ==> Busy(s', j) == Busy(s, j);
    if k != id {
      assert Busy(s, k) && HolderInv(s, k);
    }
  }

  lemma ClaimKeeps(s: State, id: nat, oc: Outcome, s': State)
    requires Inv(s) && id in s.reqs && s.reqs[id].pc == Claiming && s' == ClaimStep(s, id, oc)
    ensures Inv(s')
  {
    if !s.hist.lapsed && ClaimReply(s.rec, s.reqs[id].fingerprint) == ACCEPTED {
      forall k
        ensures !Busy(s, k)
      {
        assert Busy(s, k) ==> HolderInv(s, k);
      }
    }
    if !s.hist.lapsed { ClaimKeepsRecord(s, id, oc, s'); }
    Moved(s, id, s'.reqs[id].pc, s');
  }

  lemma ClaimKeepsRecord(s: State, id: nat, oc: Outcome, s': State)
    requires Inv(s) && id in s.reqs && s.reqs[id].pc == Claiming && s' == ClaimStep(s, id, oc) && !s.hist.lapsed
    ensures RecordInv(s') && ReplayInv(s')
    ensures Busy(s', id) ==> HolderInv(s', id)
  {
  }

  lemma EndKeeps(s: State, id: nat, r: Response, s': State)
    requires Inv(s) && id in s.reqs && s.reqs[id].pc == Running && s' == EndStep(s, id, r)
    ensures Inv(s')
  {
    assert Busy(s, id);
    if !s.hist.lapsed {
      assert HolderInv(s, id) && s.hist.good == [];
      assert ReplayInv(s) && s.hist.replays == {};
    }
    Moved(s, id, Ended(r), s');
  }

  lemma RecordKeeps(s: State, id: nat, r: Response, oc: Outcome, s': State)
    requires Inv(s) && id in s.reqs && s.reqs[id].pc == Ended(r) && s' == RecordStep(s, id, r, oc)
    ensures Inv(s')
  {
    assert Busy(s, id);
    if !s.hist.lapsed { assert HolderInv(s, id); }
    Moved(s, id, Answered(Executed(r)), s');
  }

  lemma LookKeeps(s: State, id: nat, oc: Outcome, s': State)
    requires Inv(s) && id in s.reqs && s.reqs[id].pc == Looking && s' == LookStep(s, id, oc)
    ensures Inv(s')
  {
    if !s.hist.lapsed { assert RecordInv(s) && ReplayInv(s); }
    Moved(s, id, s'.reqs[id].pc, s');
  }

  lemma ArriveKeeps(s: State, id: nat, fp: string, s': State)
    requires Inv(s) && id !in s.reqs && s' == s.(reqs := s.reqs[id := Request(fp, Claiming)])
    ensures Inv(s')
  {
    assert forall k :: Busy(s', k) == Busy(s, k);
    if !s.hist.lapsed {
      forall k | Busy(s', k)
        ensures HolderInv(s', k)
      {
        assert HolderInv(s, k);
      }
    }
  }

  lemma ExpireKeeps(s: State, s': State)
    requires Inv(s) && s' == ExpireStep(s)
    ensures Inv(s')
  {
    assert forall k :: Busy(s', k) == Busy(s, k);
  }

  lemma StepKeeps(s: State, a: Action)
    requires Inv(s)
    ensures Inv(Apply(s, a))
  {
    var s' := Apply(s, a);
    match a
    case Arrive(id, fp) => if id !in s.reqs { ArriveKeeps(s, id, fp, s'); }
    case Expire => ExpireKeeps(s, s');
    case Step(id, oc, response) =>
      if id in s.reqs {
        match s.reqs[id].pc
        case Claiming => ClaimKeeps(s, id, oc, s');
        case Running => EndKeeps(s, id, response, s');
        case Ended(r) => RecordKeeps(s, id, r, oc, s');
        case Looking => LookKeeps(s, id, oc, s');
        case Answered(_) =>
      }
  }

  lemma {:induction false} RunKeeps(acts: seq<Action>)
    ensures Inv(Run(acts))
  {
    if acts != [] {
      RunKeeps(acts[..|acts| - 1]);
      StepKeeps(Run(acts[..|acts| - 1]), acts[|acts| - 1]);
    }
  }

  // ---- theorems

  /** Within a lifetime of the record that began while nobody held the claim, however many requests race and whatever replies and
      record writes get lost: at most one execution is in flight, at most one ends below 500,
      and every replay shows that one's status and the first megabyte of its body. */
  lemma AtMostOneExecution(acts: seq<Action>, i: nat, j: nat)
    requires !Run(acts).hist.lapsed
    ensures var s := Run(acts);
      && (Busy(s, i) && Busy(s, j) ==> i == j)
      && (Busy(s, i) && s.reqs[i].pc.Running? ==> s.hist.good == [])
      && |s.hist.good| <= 1
      && forall r :: r in s.hist.replays ==>
           s.hist.good != [] && r.status == s.hist.good[0].status && r.body == Cap(s.hist.good[0].body)
  {
    RunKeeps(acts);
    var s := Run(acts);
    if Busy(s, i) { assert HolderInv(s, i); }
  }

  /** Every execution but the first of a lifetime makes up for one that was recorded FAILED. */
  lemma RetriesFollowFailures(acts: seq<Action>)
    requires !Run(acts).hist.lapsed
    ensures Run(acts).hist.starts <= Run(acts).hist.setbacks + 1
  {
    RunKeeps(acts);
  }

  /** Without qualification: a request answered with a replay, 409, 422 or 503 has not run. */
  lemma OnlyExecutedRequestsRan(acts: seq<Action>, id: nat)
    requires id in Run(acts).reqs && Run(acts).reqs[id].pc.Answered?
    ensures id in Run(acts).hist.ran <==> Run(acts).reqs[id].pc.reply.Executed?
  {
    RunKeeps(acts);
  }

  /** In every run a claim goes through exactly when there is no record or it says FAILED,
      whatever body failed before; otherwise another body is a mismatch and the same body a
      duplicate. */
  lemma ClaimIs(acts: seq<Action>, id: nat, r: Response)
    requires var s := Run(acts); id in s.reqs && s.reqs[id].pc == Claiming
    ensures var s, s' := Run(acts), Run(acts + [Step(id, Ok, r)]);
      && (s'.reqs[id].pc == Running <==> s.rec.None? || s.rec.value.status == FAILED)
      && (s'.reqs[id].pc == Running ==> s'.rec.Some? && s'.rec.value.status == PENDING
                                        && s'.rec.value.fingerprint == Some(s.reqs[id].fingerprint)
                                        && (!s.hist.lapsed ==> s.hist.good == []))
      && (s'.reqs[id].pc == Answered(Mismatched) <==>
            s.rec.Some? && s.rec.value.status != FAILED && s.rec.value.fingerprint != Some(s.reqs[id].fingerprint))
      && (s'.reqs[id].pc != Running ==> s'.rec == s.rec)
  {
    RunKeeps(acts);
    RunAppend(acts, Step(id, Ok, r));
  }

  /** What a lookup makes of the record, in every run: a record with a body is replayed, with its
      status code; anything else, and a lookup with an error, is a conflict. */
  lemma LookupAnswers(acts: seq<Action>, id: nat, oc: Outcome, r: Response)
    requires var s := Run(acts); id in s.reqs && s.reqs[id].pc == Looking
    ensures var s, s' := Run(acts), Run(acts + [Step(id, oc, r)]);
      && s'.rec == s.rec && id in s'.reqs
      && s'.reqs[id].pc == Answered(
           if oc.Ok? && s.rec.Some? && s.rec.value.body != ""
           then Replayed(Response(if s.rec.value.code.Some? then s.rec.value.code.value else 0, s.rec.value.body))
           else Conflict)
  {
    RunAppend(acts, Step(id, oc, r));
  }

  /** What the end of an execution writes, when it reaches Redis: below 500 the response, else
      that the key may be claimed again. */
  lemma OutcomeRecorded(acts: seq<Action>, id: nat, oc: Outcome, r: Response, ended: Response)
    requires var s := Run(acts); id in s.reqs && s.reqs[id].pc == Ended(ended)
    ensures var s, s' := Run(acts), Run(acts + [Step(id, oc, r)]);
      && id in s'.reqs && s'.reqs[id] == s.reqs[id].(pc := Answered(Executed(ended)))
      && (!oc.TookEffect() ==> s'.rec == s.rec)
      && (oc.TookEffect() && ended.status >= 500 ==>
            s'.rec.Some? && s'.rec.value.status == FAILED && s'.rec.value.fingerprint == Some(s.reqs[id].fingerprint))
      && (oc.TookEffect() && ended.status < 500 ==>
            && s'.rec.Some? && s'.rec.value.status == COMPLETED && s'.rec.value.code == Some(ended.status)
            && s'.rec.value.body <= ended.body && |s'.rec.value.body| == (if |ended.body| <= 1_048_576 then |ended.body| else 1_048_576)
            && s'.rec.value.fingerprint == (if s.rec.Some? then s.rec.value.fingerprint else None))
  {
    RunAppend(acts, Step(id, oc, r));
    CapIs(ended.body);
  }

  /** In any run: after a failed execution has been recorded, the next claim runs again, whatever
      its body. */
  lemma FailureMayBeRetried(acts: seq<Action>, i: nat, oc: Outcome, ended: Response, j: nat, r: Response)
    requires var s := Run(acts); i in s.reqs && s.reqs[i].pc == Ended(ended) && j in s.reqs && s.reqs[j].pc == Claiming
    requires ended.status >= 500 && oc.TookEffect()
    ensures var t := Run(acts + [Step(i, oc, r)] + [Step(j, Ok, r)]);
      j in t.reqs && t.reqs[j].pc == Running && t.rec.Some? && t.rec.value.status == PENDING
  {
    OutcomeRecorded(acts, i, oc, r, ended);
    RunAppend(acts, Step(i, oc, r));
    ClaimIs(acts + [Step(i, oc, r)], j, r);
  }

  /** After an execution below 500 with a body has been recorded in a clean lifetime, and until the
      record expires, whatever other requests do: a request with the same fingerprint that claims
      now is a duplicate, and its lookup replays that execution's status and body, up to a
      megabyte. */
  lemma DuplicatesReplay(acts: seq<Action>, i: nat, oc: Outcome, ended: Response, j: nat, more: seq<Action>, later: seq<Action>, r: Response)
    requires var s := Run(acts); !s.hist.lapsed && i in s.reqs && s.reqs[i].pc == Ended(ended)
    requires ended.status < 500 && ended.body != "" && oc.TookEffect() && Expire !in more && Expire !in later
    requires var s := Run(acts + [Step(i, oc, r)] + more);
      j in s.reqs && s.reqs[j] == Request(Run(acts).reqs[i].fingerprint, Claiming)
    requires forall k | 0 <= k < |later| :: later[k].Step? ==> later[k].id != j
    ensures var t := Run(acts + [Step(i, oc, r)] + more + [Step(j, Ok, r)] + later + [Step(j, Ok, r)]);
      && j in t.reqs && t.reqs[j].pc.Answered? && t.reqs[j].pc.reply.Replayed?
      && var shown := t.reqs[j].pc.reply.response;
         shown.status == ended.status && shown.body <= ended.body
         && |shown.body| == if |ended.body| <= 1_048_576 then |ended.body| else 1_048_576
  {
    RunKeeps(acts);
    assert Busy(Run(acts), i) && HolderInv(Run(acts), i);
    var recorded := acts + [Step(i, oc, r)];
    var claimed := recorded + more + [Step(j, Ok, r)];
    OutcomeRecorded(acts, i, oc, r, ended);
    RunAppend(acts, Step(i, oc, r));
    CompletedForever(recorded, more);
    RunAppend(recorded + more, Step(j, Ok, r));
    assert Run(claimed).rec == Run(recorded).rec && !Run(claimed).hist.lapsed;
    CompletedForever(claimed, later);
    OthersLeaveAlone(claimed, later, j);
    LookupAnswers(claimed + later, j, Ok, r);
  }

  /** The request holds no claim, or has ended with just what the record says, so that recording
      it again changes nothing. */
  predicate AtRest(s: State, id: nat) {
    Busy(s, id) ==>
      s.reqs[id].pc.Ended? && s.rec == Some(Recorded(s.rec, s.reqs[id].fingerprint, s.reqs[id].pc.response))
  }

  ghost predicate Completed(s: State) {
    s.rec.Some? && s.rec.value.status == COMPLETED && forall id :: AtRest(s, id)
  }

  lemma CompletedStep(s: State, a: Action)
    requires Completed(s) && !a.Expire?
    ensures var s' := Apply(s, a);
      Completed(s') && s'.rec == s.rec && s'.hist.ran == s.hist.ran && s'.hist.good == s.hist.good && s'.hist.lapsed == s.hist.lapsed
  {
    if a.Step? { assert AtRest(s, a.id); }
    forall id
      ensures AtRest(Apply(s, a), id)
    {
      assert AtRest(s, id);
    }
  }

  lemma {:induction false} CompletedStays(acts: seq<Action>, more: seq<Action>)
    requires Completed(Run(acts)) && Expire !in more
    ensures var s, s' := Run(acts), Run(acts + more);
      Completed(s') && s'.rec == s.rec && s'.hist.ran == s.hist.ran && s'.hist.good == s.hist.good && s'.hist.lapsed == s.hist.lapsed
  {
    if more == [] {
      assert acts + more == acts;
    } else {
      var before, a := more[..|more| - 1], more[|more| - 1];
      assert forall x :: x in before ==> x in more;
      CompletedStays(acts, before);
      assert acts + more == (acts + before) + [a];
      RunAppend(acts + before, a);
      assert a in more;
      CompletedStep(Run(acts + before), a);
    }
  }

  /** A request that is not at rest overwrites the record: while it runs, by failing. */
  lemma Overwrites(acts: seq<Action>, id: nat) returns (more: seq<Action>)
    requires var s := Run(acts); s.rec.Some? && s.rec.value.status == COMPLETED && !AtRest(s, id)
    ensures Expire !in more && Run(acts + more).rec != Run(acts).rec
  {
    var s, record := Run(acts), Step(id, Ok, Response(500, ""));
    if s.reqs[id].pc.Ended? {
      more := [record];
      RunAppend(acts, record);
    } else {
      more := [record, record];
      assert acts + more == acts + [record] + [record];
      RunAppend(acts, record);
      RunAppend(acts + [record], record);
    }
  }

  /** A completed record stays as it is until it expires, in every continuation, exactly when
      each request that still holds a claim, from before an expiry, has ended with just that
      response; and then nothing runs meanwhile. */
  lemma CompletedForeverIff(acts: seq<Action>)
    requires var s := Run(acts); s.rec.Some? && s.rec.value.status == COMPLETED
    ensures (forall more | Expire !in more :: Run(acts + more).rec == Run(acts).rec) <==> forall id :: AtRest(Run(acts), id)
  {
    if id :| !AtRest(Run(acts), id) {
      var more := Overwrites(acts, id);
    } else {
      forall more | Expire !in more
        ensures Run(acts + more).rec == Run(acts).rec
      {
        CompletedStays(acts, more);
      }
    }
  }

  /** In a lifetime that began while nobody held the claim, and whenever all holders are done,
      that is so. */
  lemma CompletedForever(acts: seq<Action>, more: seq<Action>)
    requires var s := Run(acts); s.rec.Some? && s.rec.value.status == COMPLETED && (!s.hist.lapsed || forall id :: !Busy(s, id))
    requires Expire !in more
    ensures var s, s' := Run(acts), Run(acts + more);
      s'.rec == s.rec && s'.hist.ran == s.hist.ran && s'.hist.good == s.hist.good && s'.hist.lapsed == s.hist.lapsed
  {
    var s := Run(acts);
    RunKeeps(acts);
    forall id
      ensures !Busy(s, id)
    {
      if !s.hist.lapsed { assert Busy(s, id) ==> HolderInv(s, id); }
    }
    CompletedStays(acts, more);
  }

  /** A new lifetime is clean exactly when nobody holds the claim at the record's expiry,
      whatever happened in earlier lifetimes. */
  lemma ExpiryIsCleanIff(acts: seq<Action>)
    ensures !Run(acts + [Expire]).hist.lapsed <==> forall id :: !Busy(Run(acts), id)
  {
    RunAppend(acts, Expire);
  }

  /** A record that expires while one request still holds the claim always lets the next
      claim through, so the bound is exactly as long-lived as the record. */
  lemma LapseAdmitsAnother(acts: seq<Action>, i: nat, j: nat, r: Response)
    requires var s := Run(acts); Busy(s, i) && j in s.reqs && s.reqs[j].pc == Claiming
    ensures var s := Run(acts + [Expire] + [Step(j, Ok, r)]);
      s.hist.lapsed && i != j && Busy(s, i) && Busy(s, j)
  {
    RunAppend(acts, Expire);
    RunAppend(acts + [Expire], Step(j, Ok, r));
  }

  // ---- the response recorder

  /** What a handler does with its ResponseWriter. */
  datatype Op = WriteHeader(code: nat) | Write(bytes: string)

  /** Everything written. */
  function BodyOf(ops: seq<Op>): string {
    if ops == [] then ""
    else BodyOf(ops[..|ops| - 1]) + match ops[|ops| - 1] case Write(bytes) => bytes case _ => ""
  }

  /** The body is what the writes wrote, one after the other. */
  lemma {:induction false} BodyOfJoins(a: seq<Op>, b: seq<Op>)
    ensures BodyOf(a + b) == BodyOf(a) + BodyOf(b)
    ensures forall bytes, code :: BodyOf([Write(bytes)]) == bytes && BodyOf([WriteHeader(code)]) == ""
  {
    forall op: Op
      ensures BodyOf([op]) == match op case Write(bytes) => bytes case _ => ""
    {
      assert [op][..0] == [];
      assert BodyOf([]) == "";
    }
    if b == [] {
      assert a + b == a;
    } else {
      BodyOfJoins(a, b[..|b| - 1]);
      assert (a + b)[..|a + b| - 1] == a + b[..|b| - 1];
    }
  }

  /** The recorded status: the last header written, else 200 once something is written. */
  function StatusOf(ops: seq<Op>): nat {
    if ops == [] then 0
    else
      var before := StatusOf(ops[..|ops| - 1]);
      match ops[|ops| - 1] case WriteHeader(code) => code case Write(_) => if before == 0 then 200 else before
  }

  /** Such a header goes out by itself and leaves the status open; 101 is final. */
  predicate Informational(code: nat) { 100 <= code < 200 && code != 101 }

  /** The status on the wire, 0 while it is open: the first final header or write fixes it. */
  function SentStatus(ops: seq<Op>): nat {
    if ops == [] then 0
    else
      var before := SentStatus(ops[..|ops| - 1]);
      if before > 0 then before
      else match ops[|ops| - 1] case WriteHeader(code) => if Informational(code) then 0 else code case Write(_) => 200
  }

  /** What the client is left with: the server sends 200 if the handler has fixed nothing. */
  function FinalStatus(ops: seq<Op>): nat { if SentStatus(ops) == 0 then 200 else SentStatus(ops) }

  predicate Codes(ops: seq<Op>) { forall k | 0 <= k < |ops| :: ops[k].WriteHeader? ==> IsCode(ops[k].code) }

  predicate IsCode(code: nat) { 100 <= code <= 999 }

  function LastHeader(ops: seq<Op>): Option<nat> {
    if ops == [] then None
    else match ops[|ops| - 1] case WriteHeader(code) => Some(code) case Write(_) => LastHeader(ops[..|ops| - 1])
  }

  /** Operation `k` is the last WriteHeader. */
  predicate LastHeaderAt(ops: seq<Op>, k: nat) {
    k < |ops| && ops[k].WriteHeader? && forall j | k < j < |ops| :: ops[j].Write?
  }

  /** Operation `k` is the first that fixes a status: a write, or a header that is not 1xx, or 101. */
  predicate FirstFixedAt(ops: seq<Op>, k: nat) {
    && k < |ops| && (ops[k].Write? || !(100 <= ops[k].code < 200) || ops[k].code == 101)
    && forall j | 0 <= j < k :: ops[j].WriteHeader? && 100 <= ops[j].code < 200 && ops[j].code != 101
  }

  /** The status recorded is that of the last WriteHeader, and 200 for writes alone; the status on
      the wire is that of the first operation that fixes one. */
  lemma {:induction false} StatusesAre(ops: seq<Op>, k: nat)
    requires Codes(ops)
    ensures LastHeaderAt(ops, k) ==> StatusOf(ops) == ops[k].code
    ensures ops != [] && (forall j | 0 <= j < |ops| :: ops[j].Write?) ==> StatusOf(ops) == 200
    ensures FirstFixedAt(ops, k) ==> FinalStatus(ops) == if ops[k].Write? then 200 else ops[k].code
    ensures (forall j: nat :: !FirstFixedAt(ops, j)) ==> SentStatus(ops) == 0
  {
    if ops != [] {
      var n := |ops| - 1;
      StatusesAre(ops[..n], k);
      if SentStatus(ops[..n]) > 0 {
        var j: nat :| FirstFixedAt(ops[..n], j);
        assert FirstFixedAt(ops, j);
        StatusesAre(ops[..n], j);
      } else {
        NoneFixedYet(ops[..n]);
        assert FirstFixedAt(ops, n) || (ops[n].WriteHeader? && Informational(ops[n].code));
      }
    }
  }

  lemma {:induction false} NoneFixedYet(ops: seq<Op>)
    requires Codes(ops) && SentStatus(ops) == 0
    ensures forall j | 0 <= j < |ops| :: ops[j].WriteHeader? && Informational(ops[j].code)
  {
    if ops != [] { NoneFixedYet(ops[..|ops| - 1]); }
  }

  /** The status that is recorded is the one the client got exactly when the handler did
      something, and its last WriteHeader, if any, is the status that the first final one, or the
      first write, had put on the wire. */
  lemma {:induction false} RecordsWhatWasSent(ops: seq<Op>)
    requires Codes(ops)
    ensures StatusOf(ops) == FinalStatus(ops) <==>
            ops != [] && (LastHeader(ops).None? || LastHeader(ops).value == FinalStatus(ops))
    ensures ops != [] ==> StatusOf(ops) == if LastHeader(ops).None? then 200 else LastHeader(ops).value
    ensures ops != [] ==> StatusOf(ops) > 0
    ensures ops != [] && LastHeader(ops).None? ==> SentStatus(ops) == 200
  {
    if ops != [] {
      RecordsWhatWasSent(ops[..|ops| - 1]);
    }
  }

  class ResponseRecorder {
    var status: nat
    var body: string
    // the wrapped ResponseWriter
    var sentStatus: nat
    var sentBody: string

    ghost predicate Holds(ops: seq<Op>)
      reads this
    {
      && status == StatusOf(ops) && body == Cap(BodyOf(ops))
      && sentStatus == SentStatus(ops) && sentBody == BodyOf(ops)
    }

    constructor ()
      ensures Holds([])
    {
      status, body, sentStatus, sentBody := 0, "", 0, "";
    }

    method WriteHeader(code: nat, ghost ops: seq<Op>)
      requires Holds(ops)
      modifies this
      ensures Holds(ops + [Op.WriteHeader(code)])
    {
      Appended(ops, Op.WriteHeader(code));
      status := code;
      if sentStatus == 0 && !Informational(code) {
        sentStatus := code;
      }
    }

    method Write(b: string, ghost ops: seq<Op>)
      requires Holds(ops)
      modifies this
      ensures Holds(ops + [Op.Write(b)])
    {
      Appended(ops, Op.Write(b));
      if status == 0 {
        status := 200;
      }
      if |body| < CACHE_LIMIT {
        var room := CACHE_LIMIT - |body|;
        if |b| > room {
          body := body + b[..room];
        } else {
          body := body + b;
        }
      }
      if sentStatus == 0 {
        sentStatus := 200;
      }
      sentBody := sentBody + b;
    }

    /** The handler behind the middleware. */
    method Serve(ops: seq<Op>)
      requires Codes(ops) && Holds([])
      modifies this
      ensures Holds(ops)
    {
      for n := 0 to |ops|
        invariant Holds(ops[..n])
      {
        assert ops[..n + 1] == ops[..n] + [ops[n]];
        match ops[n]
        case WriteHeader(code) => WriteHeader(code, ops[..n]);
        case Write(bytes) => Write(bytes, ops[..n]);
      }
      assert ops[..|ops|] == ops;
    }
  }

  lemma Appended(ops: seq<Op>, op: Op)
    ensures var all := ops + [op]; all[..|all| - 1] == ops && all[|all| - 1] == op
  {
    assert (ops + [op])[..|ops|] == ops;
  }

  // ---- the middleware

  /** Steps of other requests, and the record's expiry, leave this one where it is. */
  lemma {:induction false} OthersLeaveAlone(acts: seq<Action>, others: seq<Action>, id: nat)
    requires id in Run(acts).reqs
    requires forall k | 0 <= k < |others| :: others[k].Step? ==> others[k].id != id
    ensures id in Run(acts + others).reqs && Run(acts + others).reqs[id] == Run(acts).reqs[id]
  {
    if others == [] {
      assert acts + others == acts;
    } else {
      var before, a := others[..|others| - 1], others[|others| - 1];
      OthersLeaveAlone(acts, before, id);
      assert acts + others == (acts + before) + [a];
      RunAppend(acts + before, a);
    }
  }

  class Middleware {
    var rec: Option<Record>
    ghost var reqs: map<nat, Request>
    ghost var hist: History
    ghost var trace: seq<Action>

    ghost function View(): State
      reads this
    {
      State(rec, reqs, hist)
    }

    ghost predicate Valid()
      reads this
    {
      View() == Run(trace)
    }

    constructor ()
      ensures Valid() && trace == []
    {
      rec, reqs, hist, trace := None, map[], EMPTY.hist, [];
    }

    /** Any other requests take any number of steps, and the record may expire. */
    method Interfere(ghost id: nat)
      requires Valid()
      modifies this
      ensures Valid() && old(trace) <= trace
      ensures forall k | |old(trace)| <= k < |trace| :: trace[k].Step? ==> trace[k].id != id
    {
    }

    method Yield(ghost id: nat)
      requires Valid() && id in reqs
      modifies this
      ensures Valid() && old(trace) <= trace && id in reqs && reqs[id] == old(reqs)[id]
    {
      ghost var acts := trace;
      Interfere(id);
      assert trace == acts + trace[|acts|..];
      OthersLeaveAlone(acts, trace[|acts|..], id);
    }

    /** Adopts the bookkeeping of a step whose effect on the record has been carried out. */
    ghost method Took(a: Action, before: State)
      requires before == Run(trace) && View() == Apply(before, a).(reqs := reqs, hist := hist)
      modifies `reqs, `hist, `trace
      ensures Valid() && trace == old(trace) + [a] && View() == Apply(before, a)
    {
      var s := Apply(before, a);
      assert rec == s.rec;
      reqs, hist := s.reqs, s.hist;
      assert View() == s;
      RunAppend(trace, a);
      trace := trace + [a];
    }

    /** claim_idem.lua; None when the reply does not arrive. */
    method ClaimIdem(id: nat, fp: string, oc: Outcome) returns (reply: Option<Claim>)
      requires Valid() && id in reqs && reqs[id] == Request(fp, Claiming)
      modifies this
      ensures Valid() && trace == old(trace) + [Step(id, oc, Response(0, ""))]
      ensures View() == ClaimStep(old(View()), id, oc)
      ensures reply.Some? <==> oc.Ok?
      ensures reply.Some? ==>
        (reply.value == if Claimable(old(rec)) then ACCEPTED
                        else if old(rec).value.fingerprint == Some(fp) then DUPLICATE else MISMATCH)
      ensures rec == if oc.TookEffect() && Claimable(old(rec))
                     then Some(if old(rec).None? then Record(PENDING, Some(fp), None, "")
                               else old(rec).value.(status := PENDING, fingerprint := Some(fp)))
                     else old(rec)
    {
      ghost var before := View();
      var answer := ACCEPTED;
      if rec.Some? && rec.value.status != FAILED {
        answer := if rec.value.fingerprint != Some(fp) then MISMATCH else DUPLICATE;
      } else if oc.TookEffect() {
        rec := match rec
               case None => Some(Record(PENDING, Some(fp), None, ""))
               case Some(r) => Some(r.(status := PENDING, fingerprint := Some(fp)));
      }
      Took(Step(id, oc, Response(0, "")), before);
      reply := if oc.Ok? then Some(answer) else None;
    }

    method Replay(id: nat, oc: Outcome) returns (reply: Reply)
      requires Valid() && id in reqs && reqs[id].pc == Looking
      modifies this
      ensures Valid() && trace == old(trace) + [Step(id, oc, Response(0, ""))]
      ensures id in reqs && reqs[id] == old(reqs)[id].(pc := Answered(reply)) && rec == old(rec)
      ensures reply == if oc.Ok? then Shown(rec) else Conflict
    {
      ghost var before := View();
      reply := Conflict;
      if oc.Ok? && rec.Some? && rec.value.body != "" {
        reply := Replayed(Response(if rec.value.code.Some? then rec.value.code.value else 0, rec.value.body));
      }
      Took(Step(id, oc, Response(0, "")), before);
    }

    method RecordOutcome(id: nat, fp: string, status: nat, body: string, ghost r: Response, oc: Outcome)
      requires Valid() && id in reqs && reqs[id] == Request(fp, Ended(r))
      requires status == r.status && body == Cap(r.body)
      modifies this
      ensures Valid() && trace == old(trace) + [Step(id, oc, Response(0, ""))]
      ensures View() == RecordStep(old(View()), id, r, oc)
      ensures !oc.TookEffect() ==> rec == old(rec)
      ensures oc.TookEffect() ==>
        var was := if old(rec).Some? then old(rec).value else Record(PENDING, None, None, "");
        (rec == Some(if r.status >= 500 then was.(status := FAILED, fingerprint := Some(fp))
                     else was.(status := COMPLETED, code := Some(r.status), body := body)))
    {
      ghost var before := View();
      if oc.TookEffect() {
        var was := if rec.Some? then rec.value else Record(PENDING, None, None, "");
        if status >= 500 {
          rec := Some(was.(status := FAILED, fingerprint := Some(fp)));
        } else {
          rec := Some(was.(status := COMPLETED, body := body, code := Some(status)));
        }
      }
      Took(Step(id, oc, Response(0, "")), before);
    }

    /** Runs the handler behind a recorder, then records how it ended. */
    method Execute(id: nat, fp: string, ops: seq<Op>, oc: Outcome) returns (reply: Reply)
      requires Valid() && id in reqs && reqs[id] == Request(fp, Running) && Codes(ops)
      modifies this
      ensures Valid() && old(trace) <= trace
      ensures id in reqs && reqs[id] == Request(fp, Answered(reply))
      ensures reply == Executed(Response(StatusOf(ops), BodyOf(ops)))
    {
      Yield(id);
      var recorder := new ResponseRecorder();
      recorder.Serve(ops);
      var response := Response(recorder.status, recorder.sentBody);
      ghost var before := View();
      Took(Step(id, Ok, response), before);
      Yield(id);
      RecordOutcome(id, fp, recorder.status, recorder.body, response, oc);
      reply := Executed(response);
    }

    method Arrive(id: nat, fp: string)
      requires Valid() && id !in reqs
      modifies this
      ensures Valid() && trace == old(trace) + [Action.Arrive(id, fp)]
      ensures rec == old(rec) && reqs == old(reqs)[id := Request(fp, Claiming)]
    {
      Took(Action.Arrive(id, fp), View());
    }

    method LookUp(id: nat, oc: Outcome) returns (reply: Reply, ghost seen: State)
      requires Valid() && id in reqs && reqs[id].pc == Looking
      modifies this
      ensures Valid() && old(trace) <= trace && OnTheWay(seen, old(trace), trace)
      ensures id in reqs && reqs[id] == old(reqs)[id].(pc := Answered(reply))
      ensures reply == if oc.Ok? then Shown(seen.rec) else Conflict
    {
      Yield(id);
      seen := View();
      ghost var here := trace;
      reply := Replay(id, oc);
    }

    /** One POST under a well-formed key whose handler performs `ops`. Its reply is decided by
        the record as the claim finds it and, for a duplicate, as the lookup finds it. */
    method Handle(id: nat, fp: string, ops: seq<Op>, claim: Outcome, look: Outcome, record: Outcome)
      returns (reply: Reply, ghost found: State, ghost seen: State)
      requires Valid() && id !in reqs && Codes(ops)
      modifies this
      ensures Valid() && old(trace) <= trace
      ensures id in reqs && reqs[id] == Request(fp, Answered(reply))
      ensures OnTheWay(found, old(trace), trace) && OnTheWay(seen, old(trace), trace)
      ensures match reply
        case Unavailable => !claim.Ok?
        case Executed(response) =>
          claim.Ok? && Claimable(found.rec) && response == Response(StatusOf(ops), BodyOf(ops))
        case Mismatched => claim.Ok? && !Claimable(found.rec) && found.rec.value.fingerprint != Some(fp)
        case _ => claim.Ok? && !Claimable(found.rec) && found.rec.value.fingerprint == Some(fp)
                  && reply == if look.Ok? then Shown(seen.rec) else Conflict
    {
      Arrive(id, fp);
      Yield(id);
      found, seen := View(), View();
      ghost var here := trace;
      var status := ClaimIdem(id, fp, claim);
      if status == None {
        reply := Unavailable;
      } else if status == Some(DUPLICATE) {
        reply, seen := LookUp(id, look);
      } else if status == Some(MISMATCH) {
        reply := Mismatched;
      } else {
        reply := Execute(id, fp, ops, record);
      }
      OnTheWayFrom(found, old(trace), here, trace);
    }
  }

  lemma OnTheWayFrom(s: State, from: seq<Action>, here: seq<Action>, to: seq<Action>)
    requires from <= here <= to && s == Run(here)
    ensures OnTheWay(s, from, to)
  {
  }

  /** A state that the run has gone through between two points. */
  ghost predicate OnTheWay(s: State, from: seq<Action>, to: seq<Action>) {
    exists here :: from <= here <= to && s == Run(here)
  }
}
