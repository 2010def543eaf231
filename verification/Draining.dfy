/** Graceful removal: a member brought down while it has calls stays until they are gone. */
module Draining {
  import opened Common
  import opened Lists
  import opened Scheduler
  import opened Membership
  import opened Routing
  import opened Runs
  import opened Ownership

  ghost predicate Drains<M>(s: State<M>, m: M) {
    && m in s.members
    && Listed(s, m)
    && s.members[m].status == DRAINING
    && s.members[m].watched
    && s.members[m].sessions > 0
  }

  /** bring_down removes an offline or idle member at once and starts draining every other. */
  lemma BringDownExactly<M>(s: State<M>, m: M)
    requires Partition(s) && Listed(s, m)
    ensures var t := BringDown(s, m);
      if m in s.pending || s.members[m].calls.young == {} || s.members[m].sessions <= 0
      then t.members[m].down && !Listed(t, m)
      else Drains(t, m) && t.active == s.active && t.pending == s.pending
  {
    RemoveFirstMembers(s.active, m);
    RemoveFirstMembers(s.pending, m);
  }

  /** The events that end the draining of m. */
  ghost predicate Ends<M>(s: State<M>, e: Event<M>, m: M)
    requires m in s.members
  {
    var r := s.members[m];
    match e
    case Reported(x, n) => x == m && n != r.sessions && (r.calls.young == {} || n <= 0)
    case Removal(x) => x == m && (m in s.pending || r.calls.young == {})
    case Statused(x, st) => x == m && st != DRAINING
    case Configured(x, _, st) => x == m && st != DRAINING
    case Closed => true
    case _ => false
  }

  lemma DrainThroughOnline<M>(s: State<M>, m: M, x: M, up: bool)
    requires Partition(s) && Drains(s, m) && x in s.members
    ensures Drains(GoOnline(s, x, up), m) && Drains(GoOffline(s, x), m)
  {
    RemoveFirstMembers(s.pending, x);
    RemoveFirstMembers(s.active, x);
  }

  lemma DrainThroughReport<M>(s: State<M>, m: M, x: M, n: int)
    requires Partition(s) && Drains(s, m) && x in s.members
    ensures Drains(Report(s, x, n), m) <==> !Ends(s, Reported(x, n), m)
    ensures Ends(s, Reported(x, n), m) ==> !Listed(Report(s, x, n), m) && Report(s, x, n).members[m].down
  {
    RemoveFirstMembers(s.pending, x);
    RemoveFirstMembers(s.active, x);
  }

  lemma DrainThroughRemoval<M>(s: State<M>, m: M, x: M)
    requires Partition(s) && Drains(s, m) && x in s.members
    ensures Drains(BringDown(s, x), m) <==> !Ends(s, Removal(x), m)
    ensures Ends(s, Removal(x), m) ==> !Listed(BringDown(s, x), m) && BringDown(s, x).members[m].down
  {
    RemoveFirstMembers(s.pending, x);
    RemoveFirstMembers(s.active, x);
  }

  /**
    Draining goes on exactly until such an event; unless the operator changed the status, the member is then
    shut down.
  */
  lemma DrainStepExactly<M>(s: State<M>, e: Event<M>, m: M)
    requires Partition(s) && Drains(s, m)
    ensures Drains(Step(s, e), m) <==> !Ends(s, e, m)
    ensures Ends(s, e, m) && !e.Statused? && !e.Configured? ==>
      !Listed(Step(s, e), m) && Step(s, e).members[m].down
  {
    match e
    case Online(x, up) => if x in s.members { DrainThroughOnline(s, m, x, up); }
    case Offline(x) => if x in s.members { DrainThroughOnline(s, m, x, true); }
    case Reported(x, n) => if x in s.members { DrainThroughReport(s, m, x, n); }
    case Removal(x) => if x in s.members { DrainThroughRemoval(s, m, x); }
    case Sorted(order) =>
      if multiset(order) == multiset(s.active) {
        PermutationMembers(s.active, order);
      }
    case Command(cmd, draw) => RouteChangesOnlyCalls(s, cmd, draw);
    case Join(x, r) =>
    case Statused(x, st) =>
    case Configured(x, p, st) =>
    case Detected(_, _) =>
    case Aged(x) =>
    case Limited(_) =>
    case Relayed(_) =>
    case Closed =>
  }

  /** The first report of no session removes a draining member. */
  lemma FirstEmptyReportRemoves<M>(s: State<M>, m: M, n: int)
    requires Partition(s) && Drains(s, m) && n <= 0
    ensures !Listed(Report(s, m, n), m) && Report(s, m, n).members[m].down
  {
    DrainStepExactly(s, Reported(m, n), m);
  }

  /** Over every run, a draining member drains on unless one of the ending events has come. */
  lemma {:induction false} DrainsUntilEnd<M>(es: seq<Event<M>>, m: M, i: nat, j: nat)
    requires i <= j <= |es| && Drains(Run(es[..i]), m)
    requires forall k :: i <= k < j && m in Run(es[..k]).members ==> !Ends(Run(es[..k]), es[k], m)
    ensures Drains(Run(es[..j]), m)
    decreases j - i
  {
    if i < j {
      RunStep(es, i);
      DrainStepExactly(Run(es[..i]), es[i], m);
      DrainsUntilEnd(es, m, i + 1, j);
    }
  }

  /** A draining member takes no new session, and gets exactly the commands that reach it for calls it owns. */
  lemma DrainingServesOnlyItsCalls<M>(s: State<M>, m: M, cmd: Cmd, reparses: bool, draw: Draw)
    requires Partition(s) && Drains(s, m)
    ensures PickProxy(s, draw) != Some(m)
    ensures var o := Route(s, cmd, reparses, draw).1; OneOwner(s) && IsSession(cmd) ==>
      (o.Forwarded? && o.to == m <==>
        Owns(s, m, cmd.callId) && ReachesOwner(s, m, cmd) && !OwnedDeliveryFails(s.members[m], s.relay, cmd, reparses))
  {
    PickIsListed(s, draw);
    if OneOwner(s) && IsSession(cmd) && Owns(s, m, cmd.callId) {
      OwnedCallGoesToOwner(s, cmd, reparses, draw, m);
    } else {
      TargetIsListed(s, cmd);
    }
  }
}
