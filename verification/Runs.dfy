/**
  The cluster as one system: every event that changes it, and the facts that
  hold after every sequence of events.
*/
module Runs {
  import opened Common
  import opened Scheduler
  import opened Sessions
  import opened Membership
  import opened Routing

  datatype Event<M> =
    | Join(m: M, record: Record)          // add_member
    | Online(m: M, up: bool)
    | Offline(m: M)
    | Reported(m: M, n: int)              // heartbeat with the number of active sessions
    | Removal(m: M)                       // bring_down, from the CLI or a reload
    | Statused(m: M, status: Status)      // CLI pause and resume
    | Configured(m: M, params: Params, status: Status)
    | Detected(m: M, wdnt: bool)          // the client learns what the proxy supports
    | Aged(m: M)
    | Sorted(order: seq<M>)               // CLI ls
    | Limited(soft: bool)
    | Relayed(relay: Option<Relay>)
    | Command(cmd: Cmd, draw: Draw)
    | Closed

  /** A member object as NewRtp_cluster_member makes it. */
  predicate Blank(r: Record) {
    r.calls == NoCalls && !r.down && !r.watched && r.filtered == 0.0
  }

  /** Events about an object the cluster has never seen, or seen already, do not occur; they change nothing. */
  ghost function Step<M>(s: State<M>, e: Event<M>): State<M>
    requires Partition(s)
  {
    match e
    case Join(m, r) => if m !in s.members && Blank(r) then AddMember(s, m, r) else s
    case Online(m, up) => if m in s.members then GoOnline(s, m, up) else s
    case Offline(m) => if m in s.members then GoOffline(s, m) else s
    case Reported(m, n) => if m in s.members then Report(s, m, n) else s
    case Removal(m) => if m in s.members then BringDown(s, m) else s
    case Statused(m, st) => if m in s.members then SetStatus(s, m, st) else s
    case Configured(m, p, st) => if m in s.members then Configure(s, m, p, st) else s
    case Detected(m, wdnt) => if m in s.members then Detect(s, m, wdnt) else s
    case Aged(m) => if m in s.members then AgeCalls(s, m) else s
    case Sorted(order) => Reorder(s, order)
    case Limited(soft) => s.(soft := soft)
    case Relayed(relay) => s.(relay := relay)
    case Command(cmd, draw) => RouteState(s, cmd, draw)
    case Closed => Close(s)
  }

  lemma MemberStepKeepsPartition<M>(s: State<M>, e: Event<M>, m: M)
    requires Partition(s) && m in s.members
    requires e.Online? || e.Offline? || e.Reported? || e.Removal?
    requires e.m == m
    ensures Partition(Step(s, e))
  {
    match e
    case Online(_, up) => GoOnlineKeeps(s, m, up);
    case Offline(_) => GoOfflineKeeps(s, m);
    case Reported(_, n) => ReportKeeps(s, m, n);
    case Removal(_) => BringDownKeeps(s, m);
  }

  lemma StepKeepsPartition<M>(s: State<M>, e: Event<M>)
    requires Partition(s)
    ensures Partition(Step(s, e))
  {
    match e
    case Online(m, _) => if m in s.members { MemberStepKeepsPartition(s, e, m); }
    case Offline(m) => if m in s.members { MemberStepKeepsPartition(s, e, m); }
    case Reported(m, _) => if m in s.members { MemberStepKeepsPartition(s, e, m); }
    case Removal(m) => if m in s.members { MemberStepKeepsPartition(s, e, m); }
    case Sorted(order) => ReorderKeeps(s, order);
    case Command(cmd, draw) => RouteKeepsPartition(s, cmd, draw);
    case Join(m, r) => if m in s.members || !Blank(r) {} else { AddMemberKeeps(s, m, r); }
    case _ => QuietStepKeepsPartition(s, e);
  }

  lemma QuietStepKeepsPartition<M>(s: State<M>, e: Event<M>)
    requires Partition(s)
    requires e.Statused? || e.Configured? || e.Detected? || e.Aged? || e.Limited? || e.Relayed? || e.Closed?
    ensures Partition(Step(s, e))
  {
    match e
    case Statused(m, st) => if m in s.members { PutKeeps(s, m, s.members[m].(status := st)); }
    case Configured(m, p, st) => if m in s.members { PutKeeps(s, m, s.members[m].(params := p, status := st)); }
    case Detected(m, wdnt) => if m in s.members { PutKeeps(s, m, s.members[m].(wdnt := wdnt)); }
    case Aged(m) => if m in s.members { PutKeeps(s, m, s.members[m].(calls := Age(s.members[m].calls))); }
    case Limited(_) =>
    case Relayed(_) =>
    case Closed =>
  }

  function Fresh<M>(): State<M> {
    State([], [], map[], false, None)
  }

  /** The state after a sequence of events. In every such state the two lists partition the live members. */
  ghost function Run<M>(es: seq<Event<M>>): (s: State<M>)
    ensures Partition(s)
  {
    if es == [] then Fresh()
    else
      var before := Run(es[..|es| - 1]);
      StepKeepsPartition(before, es[|es| - 1]);
      Step(before, es[|es| - 1])
  }

  lemma RunStep<M>(es: seq<Event<M>>, i: nat)
    requires i < |es|
    ensures Run(es[..i + 1]) == Step(Run(es[..i]), es[i])
  {
    assert es[..i + 1][..i] == es[..i];
  }

  /** The state after a sequence of events from state s on. */
  ghost function RunFrom<M>(s: State<M>, es: seq<Event<M>>): (t: State<M>)
    requires Partition(s)
    ensures Partition(t)
    decreases |es|
  {
    if es == [] then s
    else
      StepKeepsPartition(s, es[0]);
      RunFrom(Step(s, es[0]), es[1..])
  }

  /** A run can be cut anywhere. */
  lemma {:induction false} RunAppend<M>(es: seq<Event<M>>, more: seq<Event<M>>)
    ensures Run(es + more) == RunFrom(Run(es), more)
    decreases |more|
  {
    if more == [] {
      assert es + more == es;
    } else {
      var next := es + [more[0]];
      assert next[..|es|] == es;
      assert next + more[1..] == es + more;
      RunAppend(next, more[1..]);
    }
  }

  lemma {:induction false} RunFromAppend<M>(s: State<M>, es: seq<Event<M>>, more: seq<Event<M>>)
    requires Partition(s)
    ensures RunFrom(s, es + more) == RunFrom(RunFrom(s, es), more)
    decreases |es|
  {
    if es == [] {
      assert es + more == more;
    } else {
      assert (es + more)[1..] == es[1..] + more;
      StepKeepsPartition(s, es[0]);
      RunFromAppend(Step(s, es[0]), es[1..], more);
    }
  }

  lemma RunFromTwo<M>(s: State<M>, a: Event<M>, b: Event<M>)
    requires Partition(s)
    ensures Partition(Step(s, a)) && RunFrom(s, [a, b]) == Step(Step(s, a), b)
  {
    StepKeepsPartition(s, a);
    StepKeepsPartition(Step(s, a), b);
    assert [a, b][1..] == [b] && [b][1..] == [];
    assert RunFrom(Step(Step(s, a), b), []) == Step(Step(s, a), b);
    assert RunFrom(Step(s, a), [b]) == Step(Step(s, a), b);
  }

  /** Events other than joins, commands and ageings. */
  predicate IsMove<M>(e: Event<M>) {
    !e.Join? && !e.Command? && !e.Aged?
  }

  lemma SmallMoveIsSteady<M>(s: State<M>, e: Event<M>)
    requires Partition(s)
    requires e.Statused? || e.Configured? || e.Detected? || e.Limited? || e.Relayed?
    ensures Steady(s, Step(s, e))
  {
    match e
    case Statused(m, st) => if m in s.members { SteadyPut(s, m, s.members[m].(status := st)); }
    case Configured(m, p, st) => if m in s.members { SteadyPut(s, m, s.members[m].(params := p, status := st)); }
    case Detected(m, wdnt) => if m in s.members { SteadyPut(s, m, s.members[m].(wdnt := wdnt)); }
    case Limited(_) =>
    case Relayed(_) =>
  }

  /** No member comes or returns by a move, and calls and names are untouched. */
  lemma MoveIsSteady<M>(s: State<M>, e: Event<M>)
    requires Partition(s) && IsMove(e)
    ensures Steady(s, Step(s, e))
  {
    SteadyLists(s, s.active, s.pending);
    match e
    case Online(m, up) => if m in s.members { OnlineIsSteady(s, m, up); }
    case Offline(m) => if m in s.members { OfflineIsSteady(s, m); }
    case Reported(m, n) => if m in s.members { ReportIsSteady(s, m, n); }
    case Removal(m) => if m in s.members { BringDownIsSteady(s, m); }
    case Sorted(order) => ReorderIsSteady(s, order);
    case Closed => CloseIsSteady(s);
    case Statused(_, _) => SmallMoveIsSteady(s, e);
    case Configured(_, _, _) => SmallMoveIsSteady(s, e);
    case Detected(_, _) => SmallMoveIsSteady(s, e);
    case Limited(_) => SmallMoveIsSteady(s, e);
    case Relayed(_) => SmallMoveIsSteady(s, e);
  }

  lemma StepKeepsDown<M>(s: State<M>, e: Event<M>, m: M)
    requires Partition(s) && m in s.members && s.members[m].down
    ensures m in Step(s, e).members && Step(s, e).members[m].down
  {
    if IsMove(e) {
      MoveIsSteady(s, e);
    } else if e.Command? {
      RouteChangesOnlyCalls(s, e.cmd, e.draw);
    }
  }

  /** A member that has been shut down is in neither list ever after. */
  lemma {:induction false} RemovedNeverReturns<M>(es: seq<Event<M>>, m: M, i: nat, j: nat)
    requires i <= j <= |es|
    requires m in Run(es[..i]).members && Run(es[..i]).members[m].down
    ensures m in Run(es[..j]).members && Run(es[..j]).members[m].down
    ensures m !in Run(es[..j]).active && m !in Run(es[..j]).pending
    decreases j - i
  {
    if i < j {
      RunStep(es, i);
      StepKeepsDown(Run(es[..i]), es[i], m);
      RemovedNeverReturns(es, m, i + 1, j);
    }
  }
}
