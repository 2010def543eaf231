/**
  Session affinity over whole runs: how the call map of one member evolves
  under all events of the cluster, and when a call stays with its member.
*/
module Affinity {
  import opened Common
  import opened Scheduler
  import opened Sessions
  import opened Membership
  import opened Routing
  import opened Runs
  import opened Ownership

  /** What event e means for the calls of member m in state s. */
  ghost function OpOf<M>(s: State<M>, e: Event<M>, m: M): Op
    requires Partition(s)
  {
    match e
    case Aged(x) => if x == m && m in s.members && !s.members[m].down then Ageing else Other
    case Command(cmd, draw) =>
      if s.active == [] || !IsSession(cmd) then Other
      else (match Target(s, cmd)
        case Some(x) => if x != m then Other else if cmd.kind == 'D' then Unbinding(cmd.callId)
          else Touching(cmd.callId)
        case None => if IsNew(cmd) && PickProxy(s, draw) == Some(m) then Binding(cmd.callId, cmd.kind) else Other)
    case _ => Other
  }

  lemma OwnedOp<M>(s: State<M>, x: M, cmd: Cmd, m: M)
    requires x in s.members && m in s.members
    ensures var t := OwnedState(s, x, cmd);
      && m in t.members
      && t.members[m].calls == Apply(s.members[m].calls,
           if x != m then Other else if cmd.kind == 'D' then Unbinding(cmd.callId) else Touching(cmd.callId))
  {
    UnbindAfterTouch(s.members[m].calls, cmd.callId);
  }

  lemma NewOp<M>(s: State<M>, pick: Option<M>, cmd: Cmd, m: M)
    requires m in s.members && (pick.Some? ==> pick.value in s.members)
    ensures var t := NewState(s, pick, cmd);
      && m in t.members
      && t.members[m].calls == Apply(s.members[m].calls, if pick == Some(m) then Binding(cmd.callId, cmd.kind)
            else Other)
  {
  }

  lemma CommandOp<M>(s: State<M>, cmd: Cmd, draw: Draw, m: M)
    requires Partition(s) && m in s.members && s.active != [] && IsSession(cmd)
    ensures m in RouteState(s, cmd, draw).members
    ensures RouteState(s, cmd, draw).members[m].calls ==
      Apply(s.members[m].calls, OpOf(s, Command(cmd, draw), m))
  {
    TargetIsListed(s, cmd);
    PickIsListed(s, draw);
    match Target(s, cmd)
    case Some(x) => OwnedOp(s, x, cmd, m);
    case None => if IsNew(cmd) { NewOp(s, PickProxy(s, draw), cmd, m); }
  }

  lemma QuietOp<M>(s: State<M>, e: Event<M>, m: M)
    requires Partition(s) && m in s.members && !e.Command?
    ensures m in Step(s, e).members
    ensures Step(s, e).members[m].calls == Apply(s.members[m].calls, OpOf(s, e, m))
  {
    if IsMove(e) {
      MoveIsSteady(s, e);
    }
  }

  lemma StepOp<M>(s: State<M>, e: Event<M>, m: M)
    requires Partition(s) && m in s.members
    ensures m in Step(s, e).members
    ensures Step(s, e).members[m].calls == Apply(s.members[m].calls, OpOf(s, e, m))
  {
    if !e.Command? {
      QuietOp(s, e, m);
    } else if s.active != [] && IsSession(e.cmd) {
      CommandOp(s, e.cmd, e.draw, m);
    }
  }

  lemma NextOp<M>(es: seq<Event<M>>, m: M, i: nat)
    requires i < |es| && m in Run(es[..i]).members
    ensures m in Run(es[..i + 1]).members
    ensures Run(es[..i + 1]).members[m].calls == Apply(Run(es[..i]).members[m].calls, OpOf(Run(es[..i]), es[i], m))
  {
    RunStep(es, i);
    StepOp(Run(es[..i]), es[i], m);
  }

  /** The operations on the calls of m between positions i and j of a run, one for each event. */
  ghost function Ops<M>(es: seq<Event<M>>, m: M, i: nat, j: nat): (r: seq<Op>)
    requires i <= j <= |es|
    ensures |r| == j - i
    decreases j - i
  {
    if i == j then [] else [OpOf(Run(es[..i]), es[i], m)] + Ops(es, m, i + 1, j)
  }

  /** The call map of a member is a function of the operations that concern it. */
  lemma {:induction false} CallsFollowOps<M>(es: seq<Event<M>>, m: M, i: nat, j: nat)
    requires i <= j <= |es| && m in Run(es[..i]).members
    ensures m in Run(es[..j]).members
    ensures Run(es[..j]).members[m].calls == RunOps(Run(es[..i]).members[m].calls, Ops(es, m, i, j))
    decreases j - i
  {
    if i < j {
      NextOp(es, m, i);
      CallsFollowOps(es, m, i + 1, j);
      RunOpsFront(Run(es[..i]).members[m].calls, OpOf(Run(es[..i]), es[i], m), Ops(es, m, i + 1, j));
    }
  }

  /** A call served in every ageing period, and not deleted, stays with its member through any other events. */
  lemma ServedCallStaysOwned<M>(es: seq<Event<M>>, m: M, i: nat, c: string)
    requires NoReuse(es) && i <= |es|
    requires m in Run(es[..i]).members && Listed(Run(es), m)
    requires Unbinding(c) !in Ops(es, m, i, |es|)
    requires var calls := Run(es[..i]).members[m].calls;
      (c in calls.young && TouchedBetweenAgeings(Ops(es, m, i, |es|), c))
      || (calls.Knows(c) && TouchedEveryPeriod(Ops(es, m, i, |es|), c))
    ensures OneOwner(Run(es)) && Owns(Run(es), m, c)
  {
    assert es[..|es|] == es;
    CallsFollowOps(es, m, i, |es|);
    TouchedCallSurvives(Run(es[..i]).members[m].calls, Ops(es, m, i, |es|), c);
    OneOwnerAlways(es);
  }

  /**
    Its next command goes to that member, exactly when some member is online, none is opened anew past it, and
    it can be delivered.
  */
  lemma ServedCallSticks<M>(es: seq<Event<M>>, m: M, i: nat, cmd: Cmd, reparses: bool, draw: Draw)
    requires NoReuse(es) && i <= |es| && IsSession(cmd)
    requires m in Run(es[..i]).members && Listed(Run(es), m)
    requires Unbinding(cmd.callId) !in Ops(es, m, i, |es|)
    requires var calls := Run(es[..i]).members[m].calls;
      (cmd.callId in calls.young && TouchedBetweenAgeings(Ops(es, m, i, |es|), cmd.callId))
      || (calls.Knows(cmd.callId) && TouchedEveryPeriod(Ops(es, m, i, |es|), cmd.callId))
    ensures Owns(Run(es), m, cmd.callId)
    ensures var s := Run(es);
      var o := Route(s, cmd, reparses, draw).1;
      (o.Forwarded? && o.to == m <==>
        ReachesOwner(s, m, cmd) && !OwnedDeliveryFails(s.members[m], s.relay, cmd, reparses))
  {
    ServedCallStaysOwned(es, m, i, cmd.callId);
    OwnedCallGoesToOwner(Run(es), cmd, reparses, draw, m);
  }

  /**
    A session just bound, or just deleted, is forgotten by its member exactly when its ageing timer runs before
    the call is named again.
  */
  lemma UntouchedCallIsForgotten<M>(es: seq<Event<M>>, m: M, i: nat, c: string)
    requires i <= |es| && m in Run(es[..i]).members
    requires c in Run(es[..i]).members[m].calls.aged
    requires !Mentions(Ops(es, m, i, |es|), c)
    ensures m in Run(es).members
    ensures KnownBy(Run(es).members, m, c) <==> Ageing !in Ops(es, m, i, |es|)
  {
    assert es[..|es|] == es;
    MapsDisjointAlways(es[..i]);
    CallsFollowOps(es, m, i, |es|);
    OldCallLivesUntilAgeing(Run(es[..i]).members[m].calls, Ops(es, m, i, |es|), c);
  }
}
