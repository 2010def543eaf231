/** The load estimate of every member, over all runs of a cluster. */
module Load {
  import opened Scheduler
  import opened Membership
  import opened Routing
  import opened Runs

  /** Each member keeps the capacity cap gives it, and reports between zero and that. */
  ghost predicate WithinCapacity<M>(e: Event<M>, cap: M -> int) {
    match e
    case Join(m, r) => 0 < r.params.capacity == cap(m)
    case Configured(m, p, _) => p.capacity == cap(m)
    case Reported(m, n) => 0 <= n <= cap(m)
    case _ => true
  }

  ghost predicate Loads<M>(s: State<M>, cap: M -> int) {
    forall m :: m in s.members ==>
      0 < s.members[m].params.capacity == cap(m) && 0.0 <= s.members[m].filtered <= cap(m) as real
  }

  /** t differs from s in the record of m only, whose capacity is as before. */
  ghost predicate Changes<M>(s: State<M>, t: State<M>, m: M) {
    && m in s.members && m in t.members
    && t.members == s.members[m := t.members[m]]
    && t.members[m].params.capacity == s.members[m].params.capacity
  }

  lemma ChangeKeepsLoads<M>(s: State<M>, t: State<M>, m: M, cap: M -> int)
    requires Loads(s, cap) && Changes(s, t, m)
    requires 0.0 <= t.members[m].filtered <= cap(m) as real
    ensures Loads(t, cap)
  {
  }

  lemma MoveChanges<M>(s: State<M>, m: M, up: bool)
    requires m in s.members
    ensures Changes(s, GoOnline(s, m, up), m) && GoOnline(s, m, up).members[m].filtered == s.members[m].filtered
    ensures Changes(s, GoOffline(s, m), m) && GoOffline(s, m).members[m].filtered == s.members[m].filtered
  {
  }

  lemma BringDownChanges<M>(s: State<M>, m: M)
    requires m in s.members
    ensures Changes(s, BringDown(s, m), m) && BringDown(s, m).members[m].filtered == s.members[m].filtered
  {
  }

  lemma ReportChanges<M>(s: State<M>, m: M, n: int)
    requires m in s.members
    ensures Changes(s, Report(s, m, n), m) && Report(s, m, n).members[m].filtered == Filter(s.members[m].filtered, n)
  {
  }

  lemma MemberStepKeepsLoads<M>(s: State<M>, e: Event<M>, cap: M -> int)
    requires Partition(s) && Loads(s, cap)
    requires e.Online? || e.Offline? || e.Removal?
    ensures Loads(Step(s, e), cap)
  {
    if e.m in s.members {
      match e
      case Online(m, up) => MoveChanges(s, m, up);
      case Offline(m) => MoveChanges(s, m, true);
      case Removal(m) => BringDownChanges(s, m);
      ChangeKeepsLoads(s, Step(s, e), e.m, cap);
    }
  }

  lemma ReportKeepsLoads<M>(s: State<M>, m: M, n: int, cap: M -> int)
    requires Loads(s, cap) && m in s.members && 0 <= n <= cap(m)
    ensures Loads(Report(s, m, n), cap)
  {
    ReportChanges(s, m, n);
    ChangeKeepsLoads(s, Report(s, m, n), m, cap);
  }

  lemma SetStepKeepsLoads<M>(s: State<M>, e: Event<M>, cap: M -> int)
    requires Partition(s) && Loads(s, cap) && WithinCapacity(e, cap)
    requires e.Configured? || e.Statused? || e.Detected? || e.Aged?
    ensures Loads(Step(s, e), cap)
  {
    if e.m in s.members && Step(s, e) != s {
      ChangeKeepsLoads(s, Step(s, e), e.m, cap);
    }
  }

  lemma StepKeepsLoads<M>(s: State<M>, e: Event<M>, cap: M -> int)
    requires Partition(s) && Loads(s, cap) && WithinCapacity(e, cap)
    ensures Loads(Step(s, e), cap)
  {
    if e.Online? || e.Offline? || e.Removal? {
      MemberStepKeepsLoads(s, e, cap);
    } else if e.Reported? {
      if e.m in s.members { ReportKeepsLoads(s, e.m, e.n, cap); }
    } else if e.Configured? || e.Statused? || e.Detected? || e.Aged? {
      SetStepKeepsLoads(s, e, cap);
    } else if e.Command? {
      RouteChangesOnlyCalls(s, e.cmd, e.draw);
    }
  }

  lemma {:induction false} LoadsAlways<M>(es: seq<Event<M>>, cap: M -> int)
    requires forall e :: e in es ==> WithinCapacity(e, cap)
    ensures Loads(Run(es), cap)
  {
    if es != [] {
      LoadsAlways(es[..|es| - 1], cap);
      assert es[|es| - 1] in es;
      StepKeepsLoads(Run(es[..|es| - 1]), es[|es| - 1], cap);
    }
  }

  lemma WeightWithin(r: Record, cap: int)
    requires 0 < r.params.capacity == cap && 0.0 <= r.filtered <= cap as real && r.params.weight > 0
    ensures 0.0 <= EffectiveWeight(r.params.weight, CapUtil(r.filtered, r.params.capacity)) <= r.params.weight as real
  {
    UtilWithin(r.filtered, r.params.capacity);
    WeightScaled(r.params.weight as real, 1.0 - CapUtil(r.filtered, r.params.capacity));
  }

  /**
    After every run with reports between zero and a fixed capacity, each candidate for a new session weighs
    between zero and its configured weight.
  */
  lemma CandidatesStayPositive<M>(es: seq<Event<M>>, cap: M -> int, c: Candidate<M>)
    requires forall e :: e in es ==> WithinCapacity(e, cap)
    requires c in Candidates(Run(es).active, Run(es).members)
    ensures c.member in Run(es).members
    ensures var w := Run(es).members[c.member].params.weight; w > 0 ==> 0.0 <= c.weight <= w as real
  {
    LoadsAlways(es, cap);
    var s := Run(es);
    CandidatesAreReady(s.active, s.members, c);
    if s.members[c.member].params.weight > 0 {
      WeightWithin(s.members[c.member], cap(c.member));
    }
  }
}
