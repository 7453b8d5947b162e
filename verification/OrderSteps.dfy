/** Runs of the purchase protocol taken apart, and the steps of its jobs spelled out. */
module OrderSteps {
  import opened Common
  import opened Inventory
  import opened OrderModel

  lemma RunAppend(c: Config, s: State, acts: seq<Action>, a: Action)
    ensures Run(c, s, acts + [a]) == Apply(c, Run(c, s, acts), a)
  {
    assert (acts + [a])[..|acts|] == acts;
  }

  lemma {:induction false} RunConcat(c: Config, s0: State, acts: seq<Action>, more: seq<Action>)
    ensures Run(c, s0, acts + more) == Run(c, Run(c, s0, acts), more)
  {
    if more == [] {
      assert acts + more == acts;
    } else {
      var before, a := more[..|more| - 1], more[|more| - 1];
      RunConcat(c, s0, acts, before);
      assert (acts + more)[..|acts + more| - 1] == acts + before && (acts + more)[|acts + more| - 1] == a;
    }
  }

  // ---- single steps of jobs, spelled out

  lemma InsertIs(c: Config, s: State, i: nat, ev: Event, expires: int, oc: Outcome, s': State)
    requires i < |s.jobs| && s.jobs[i] == Handle(ev, expires, Insert) && s' == Apply(c, s, JobStep(i, oc, []))
    ensures var reply := InsertReply(c, s, ev);
      s' == s.(
        rows := if oc.TookEffect() && reply.NewRow?
                then s.rows[ev.order := Row(ev.user, ev.event, ev.sku, ev.qty, Pending, expires, s.now, 1)] else s.rows,
        jobs := s.jobs[i := if oc.Ok? && !reply.Rejected? then Handle(ev, expires, Flip) else Finished])
  {
  }

  lemma ArmIs(c: Config, s: State, i: nat, ev: Event, expires: int, attempt: nat, oc: Outcome, s': State)
    requires i < |s.jobs| && s.jobs[i] == Handle(ev, expires, Arm(attempt)) && s' == Apply(c, s, JobStep(i, oc, []))
    ensures s' == s.(
      timers := if oc.TookEffect() then s.timers + {Timer(ev.order, WholeSeconds(expires))} else s.timers,
      jobs := s.jobs[i := if !oc.Ok? && !oc.Open? && attempt + 1 < PUBLISH_ATTEMPTS
                          then Handle(ev, expires, Arm(attempt + 1)) else Finished])
  {
  }

  lemma GuardIs(c: Config, s: State, i: nat, o: OrderId, rest: seq<OrderId>, oc: Outcome, s': State)
    requires i < |s.jobs| && s.jobs[i] == Timeout(o, Guard, rest) && s' == Apply(c, s, JobStep(i, oc, []))
    ensures s' == s.(
      guards := if oc.TookEffect() && !Guarded(s, o) then s.guards[o := s.now + GUARD_TTL] else s.guards,
      jobs := s.jobs[i := if oc.Ok? && !Guarded(s, o) then Timeout(o, Get, rest) else NextTimeout(rest)])
  {
  }

  lemma GetIs(c: Config, s: State, i: nat, o: OrderId, rest: seq<OrderId>, oc: Outcome, s': State)
    requires i < |s.jobs| && s.jobs[i] == Timeout(o, Get, rest) && s' == Apply(c, s, JobStep(i, oc, []))
    ensures s' == s.(jobs := s.jobs[i := if oc.Ok? && o in s.rows
      then Timeout(o, Cancel(s.rows[o].user, s.rows[o].sku), rest) else NextTimeout(rest)])
  {
  }

  lemma CancelIs(c: Config, s: State, i: nat, o: OrderId, user: UserId, sku: Sku, rest: seq<OrderId>,
                 oc: Outcome, hit: bool, s': State)
    requires i < |s.jobs| && s.jobs[i] == Timeout(o, Cancel(user, sku), rest) && s' == Apply(c, s, JobStep(i, oc, []))
    requires hit == Due(s, o)
    ensures oc.TookEffect() && hit ==>
      s'.rows == s.rows[o := s.rows[o].(status := Cancelled, version := s.rows[o].version + 1)]
    ensures !(oc.TookEffect() && hit) ==> s'.rows == s.rows
    ensures s'.hist.announced == s.hist.announced
    ensures s' == s.(rows := s'.rows, hist := s'.hist, jobs := s.jobs[i :=
      if oc.Ok? && hit then Timeout(o, Restock(Shard(sku, Home(c, user)), Release), rest) else NextTimeout(rest)])
  {
    assert s' == CancelStep(c, s, i, o, user, sku, rest, oc);
  }

  lemma AnnounceIs(c: Config, s: State, i: nat, o: OrderId, rest: seq<OrderId>, oc: Outcome, s': State)
    requires i < |s.jobs| && s.jobs[i] == Timeout(o, Announce, rest) && s' == Apply(c, s, JobStep(i, oc, []))
    ensures s' == s.(hist := s.hist.(announced := s.hist.announced + multiset{o}), jobs := s.jobs[i := NextTimeout(rest)])
  {
  }

  lemma LeadIs(c: Config, s: State, i: nat, oc: Outcome, s': State)
    requires i < |s.jobs| && s.jobs[i].Lead? && s' == Apply(c, s, JobStep(i, oc, []))
    ensures s' == s.(
      leader := if oc.TookEffect() && s.leader <= s.now then s.now + LEADER_TTL else s.leader,
      jobs := s.jobs[i := if oc.Ok? && s.leader <= s.now then Fetch else Finished])
  {
  }

  lemma FetchIs(c: Config, s: State, i: nat, oc: Outcome, page: seq<OrderId>, s': State)
    requires i < |s.jobs| && s.jobs[i].Fetch? && IsPage(s, page) && s' == Apply(c, s, JobStep(i, oc, page))
    ensures s' == s.(jobs := s.jobs[i := if oc.Ok? then NextTimeout(page) else Finished])
  {
  }
}
