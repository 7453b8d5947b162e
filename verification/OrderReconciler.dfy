/** What an undisturbed call of ProcessTimeout and an undisturbed pass of the reconciler do to
    due orders, and when a schedule fires before its own deadline. */
module OrderReconciler {
  import opened Common
  import opened Inventory
  import opened OrderModel
  import opened OrderSteps

  /** Steps of job `i`, all without an error. */
  predicate Smooth(i: nat, run: seq<Action>) { forall k | 0 <= k < |run| :: run[k] == JobStep(i, Ok, []) }

  /** One step, then those of `run`. */
  lemma StepThen(c: Config, s: State, i: nat, s1: State, run: seq<Action>) returns (all: seq<Action>)
    requires s1 == Apply(c, s, JobStep(i, Ok, [])) && Smooth(i, run)
    ensures Smooth(i, all) && Run(c, s, all) == Run(c, s1, run)
  {
    RunAppend(c, s, [], JobStep(i, Ok, []));
    all := Then(c, s, i, [] + [JobStep(i, Ok, [])], s1, run);
  }

  lemma Then(c: Config, s: State, i: nat, first: seq<Action>, mid: State, run: seq<Action>) returns (all: seq<Action>)
    requires mid == Run(c, s, first) && Smooth(i, first) && Smooth(i, run)
    ensures Smooth(i, all) && Run(c, s, all) == Run(c, mid, run)
  {
    all := first + run;
    RunConcat(c, s, first, run);
  }

  /** What a call has to show for itself: rows, guards, the announcement of the order, if any, and
      its position. */
  ghost predicate Shows(s: State, t: State, i: nat, rows: map<OrderId, Row>, guards: map<OrderId, int>,
                        announced: multiset<OrderId>, job: Job) {
    && t.rows == rows && t.guards == guards && t.hist.announced == s.hist.announced + announced
    && i < |t.jobs| && t.jobs[i] == job && t.now == s.now
  }

  lemma RestockGoesOn(c: Config, s: State, i: nat, o: OrderId, key: InvKey, cpc: CompPc, rest: seq<OrderId>, s1: State)
    requires i < |s.jobs| && s.jobs[i] == Timeout(o, Restock(key, cpc), rest) && s1 == Apply(c, s, JobStep(i, Ok, []))
    ensures Shows(s, s1, i, s.rows, s.guards, multiset{},
      Timeout(o, if GoesOnToUnlatch(s, o, cpc, Ok) then Restock(key, Unlatch) else Announce, rest))
  {
  }

  lemma AnnounceFinishes(c: Config, s: State, i: nat, o: OrderId, rest: seq<OrderId>) returns (run: seq<Action>, t: State)
    requires i < |s.jobs| && s.jobs[i] == Timeout(o, Announce, rest)
    ensures Smooth(i, run) && t == Run(c, s, run) && Shows(s, t, i, s.rows, s.guards, multiset{o}, NextTimeout(rest))
  {
    t := Apply(c, s, JobStep(i, Ok, []));
    AnnounceIs(c, s, i, o, rest, Ok, t);
    run := StepThen(c, s, i, t, []);
  }

  /** From the release on, a call without errors runs to its end. */
  lemma RestockFinishes(c: Config, s: State, i: nat, o: OrderId, key: InvKey, cpc: CompPc, rest: seq<OrderId>)
    returns (run: seq<Action>, t: State)
    requires i < |s.jobs| && s.jobs[i] == Timeout(o, Restock(key, cpc), rest)
    ensures Smooth(i, run) && t == Run(c, s, run) && Shows(s, t, i, s.rows, s.guards, multiset{o}, NextTimeout(rest))
    decreases cpc.Release?
  {
    var s1 := Apply(c, s, JobStep(i, Ok, []));
    RestockGoesOn(c, s, i, o, key, cpc, rest, s1);
    if s1.jobs[i].tpc.Restock? {
      run, t := RestockFinishes(c, s1, i, o, key, Unlatch, rest);
    } else {
      run, t := AnnounceFinishes(c, s1, i, o, rest);
    }
    run := StepThen(c, s, i, s1, run);
  }

  function CancelledRow(row: Row): Row { row.(status := Cancelled, version := row.version + 1) }

  lemma UpdateGoesOn(c: Config, s: State, i: nat, o: OrderId, user: UserId, sku: Sku, rest: seq<OrderId>, s1: State)
    requires i < |s.jobs| && s.jobs[i] == Timeout(o, Cancel(user, sku), rest) && Due(s, o)
    requires s1 == Apply(c, s, JobStep(i, Ok, []))
    ensures Shows(s, s1, i, s.rows[o := CancelledRow(s.rows[o])], s.guards, multiset{},
                  Timeout(o, Restock(Shard(sku, Home(c, user)), Release), rest))
  {
    CancelIs(c, s, i, o, user, sku, rest, Ok, true, s1);
  }

  lemma UpdateFinishes(c: Config, s: State, i: nat, o: OrderId, user: UserId, sku: Sku, rest: seq<OrderId>)
    returns (run: seq<Action>, t: State)
    requires i < |s.jobs| && s.jobs[i] == Timeout(o, Cancel(user, sku), rest) && Due(s, o)
    ensures Smooth(i, run) && t == Run(c, s, run)
    ensures Shows(s, t, i, s.rows[o := CancelledRow(s.rows[o])], s.guards, multiset{o}, NextTimeout(rest))
  {
    var s1 := Apply(c, s, JobStep(i, Ok, []));
    UpdateGoesOn(c, s, i, o, user, sku, rest, s1);
    run, t := RestockFinishes(c, s1, i, o, Shard(sku, Home(c, user)), Release, rest);
    run := StepThen(c, s, i, s1, run);
  }

  lemma GetFinishes(c: Config, s: State, i: nat, o: OrderId, rest: seq<OrderId>) returns (run: seq<Action>, t: State)
    requires i < |s.jobs| && s.jobs[i] == Timeout(o, Get, rest) && Due(s, o)
    ensures Smooth(i, run) && t == Run(c, s, run)
    ensures Shows(s, t, i, s.rows[o := CancelledRow(s.rows[o])], s.guards, multiset{o}, NextTimeout(rest))
  {
    var s1 := Apply(c, s, JobStep(i, Ok, []));
    GetIs(c, s, i, o, rest, Ok, s1);
    run, t := UpdateFinishes(c, s1, i, o, s.rows[o].user, s.rows[o].sku, rest);
    run := StepThen(c, s, i, s1, run);
  }

  /** A call of ProcessTimeout for a due order that runs without errors and undisturbed cancels
      it, and announces that once, exactly when nobody holds its guard. */
  lemma CallCancelsIff(c: Config, s: State, i: nat, o: OrderId, rest: seq<OrderId>) returns (run: seq<Action>, t: State)
    requires i < |s.jobs| && s.jobs[i] == Timeout(o, Guard, rest) && Due(s, o)
    ensures Smooth(i, run) && t == Run(c, s, run)
    ensures Shows(s, t, i,
      if Guarded(s, o) then s.rows else s.rows[o := CancelledRow(s.rows[o])],
      if Guarded(s, o) then s.guards else s.guards[o := s.now + GUARD_TTL],
      if Guarded(s, o) then multiset{} else multiset{o},
      NextTimeout(rest))
  {
    var s1 := Apply(c, s, JobStep(i, Ok, []));
    GuardIs(c, s, i, o, rest, Ok, s1);
    if Guarded(s, o) {
      run, t := [], s1;
    } else {
      run, t := GetFinishes(c, s1, i, o, rest);
    }
    run := StepThen(c, s, i, s1, run);
  }

  predicate Distinct(xs: seq<OrderId>) { forall k, l :: 0 <= k < l < |xs| ==> xs[k] != xs[l] }

  lemma FirstOfMany(xs: seq<OrderId>)
    requires xs != [] && Distinct(xs)
    ensures xs[0] in xs && xs == [xs[0]] + xs[1..] && xs[0] !in xs[1..] && Distinct(xs[1..])
    ensures forall x :: x in xs <==> x == xs[0] || x in xs[1..]
  {
    assert xs == [xs[0]] + xs[1..];
  }

  /** Every order of `xs` that was not guarded is cancelled, and nothing else has changed. */
  ghost predicate CancelsExactly(s: State, t: State, xs: seq<OrderId>) {
    && t.now == s.now && t.rows.Keys == s.rows.Keys
    && forall x :: x in s.rows ==>
         t.rows[x] == if x in xs && !Guarded(s, x) then CancelledRow(s.rows[x]) else s.rows[x]
  }

  lemma CancelsOneMore(s: State, mid: State, t: State, o: OrderId, rest: seq<OrderId>, xs: seq<OrderId>)
    requires xs == [o] + rest && o !in rest && o in s.rows && mid.now == s.now
    requires mid.rows == if Guarded(s, o) then s.rows else s.rows[o := CancelledRow(s.rows[o])]
    requires mid.guards == if Guarded(s, o) then s.guards else s.guards[o := s.now + GUARD_TTL]
    requires CancelsExactly(mid, t, rest)
    ensures CancelsExactly(s, t, xs)
  {
    assert forall x :: x in xs <==> x == o || x in rest;
    assert forall x :: x != o ==> Guarded(mid, x) == Guarded(s, x);
  }

  lemma StillDue(s: State, mid: State, o: OrderId, rest: seq<OrderId>)
    requires o !in rest && o in s.rows && mid.now == s.now && forall x :: x in rest ==> Due(s, x)
    requires mid.rows == if Guarded(s, o) then s.rows else s.rows[o := CancelledRow(s.rows[o])]
    ensures forall x :: x in rest ==> Due(mid, x)
  {
  }

  /** The orders still ahead of the job each get their call. */
  lemma {:induction false} CallsCancel(c: Config, s: State, i: nat, xs: seq<OrderId>) returns (run: seq<Action>, t: State)
    requires i < |s.jobs| && s.jobs[i] == NextTimeout(xs) && Distinct(xs) && forall x :: x in xs ==> Due(s, x)
    ensures Smooth(i, run) && t == Run(c, s, run)
    ensures CancelsExactly(s, t, xs) && i < |t.jobs| && t.jobs[i] == Finished
    decreases |xs|
  {
    if xs == [] {
      run, t := [], s;
    } else {
      FirstOfMany(xs);
      var first, mid := CallCancelsIff(c, s, i, xs[0], xs[1..]);
      StillDue(s, mid, xs[0], xs[1..]);
      run, t := CallsCancel(c, mid, i, xs[1..]);
      CancelsOneMore(s, mid, t, xs[0], xs[1..], xs);
      run := Then(c, s, i, first, mid, run);
    }
  }

  /** The reconciler heals exactly what is not guarded: a pass that leads, runs without errors
      and undisturbed, cancels a due order iff the order is on its page and not guarded. All
      due orders are on the page unless it is full. */
  lemma PassCancelsIff(c: Config, s: State, i: nat, page: seq<OrderId>) returns (run: seq<Action>, t: State)
    requires i < |s.jobs| && s.jobs[i] == Fetch && IsPage(s, page)
    ensures Smooth(i, run) && t == Run(c, s, [JobStep(i, Ok, page)] + run) && i < |t.jobs| && t.jobs[i] == Finished
    ensures forall o :: Due(s, o) ==> o in t.rows && (t.rows[o].status == Cancelled <==> o in page && !Guarded(s, o))
    ensures |page| < PAGE_LIMIT ==> forall o :: Due(s, o) ==> o in page
  {
    var s1 := Apply(c, s, JobStep(i, Ok, page));
    FetchIs(c, s, i, Ok, page, s1);
    run, t := CallsCancel(c, s1, i, page);
    RunConcat(c, s, [] + [JobStep(i, Ok, page)], run);
    RunAppend(c, s, [], JobStep(i, Ok, page));
    assert [] + [JobStep(i, Ok, page)] == [JobStep(i, Ok, page)];
    assert forall x :: Guarded(s1, x) == Guarded(s, x) && Due(s1, x) == Due(s, x);
  }

  // ---- schedules

  /** The stream delivers the schedule's message, which starts a call of ProcessTimeout. */
  ghost predicate Fires(c: Config, s: State, t: Timer) { Apply(c, s, Fire(t)) == Spawn(s, Timeout(t.order, Guard, [])) }

  /** It does so exactly from its time on, if it is stored. */
  lemma FiresIff(c: Config, s: State, t: Timer)
    ensures Fires(c, s, t) <==> t in s.timers && t.at <= s.now
  {
    assert Spawn(s, Timeout(t.order, Guard, [])).jobs != s.jobs;
  }

  /** An armed schedule can fire before its own deadline exactly when the deadline is not a
      whole number of seconds, and by less than a second: it is set for the whole second at or
      before it. */
  lemma FiresEarlyIff(c: Config, s: State, i: nat, ev: Event, deadline: int, attempt: nat, s': State)
    requires i < |s.jobs| && s.jobs[i] == Handle(ev, deadline, Arm(attempt)) && s' == Apply(c, s, JobStep(i, Ok, []))
    ensures var t := Timer(ev.order, WholeSeconds(deadline));
      && t in s'.timers && deadline - 1_000_000 < t.at <= deadline && t.at % 1_000_000 == 0
      && ((exists now :: now < deadline && Fires(c, s'.(now := now), t)) <==> deadline % SECOND != 0)
  {
    ArmIs(c, s, i, ev, deadline, attempt, Ok, s');
    var t := Timer(ev.order, WholeSeconds(deadline));
    FiresIff(c, s'.(now := t.at), t);
    forall now | now < deadline && Fires(c, s'.(now := now), t)
      ensures t.at <= now
    {
      FiresIff(c, s'.(now := now), t);
    }
  }
}
