/** Each call has at most one owner, and its commands go there. */
module Ownership {
  import opened Common
  import opened Lists
  import opened Scheduler
  import opened Sessions
  import opened Membership
  import opened Routing
  import opened Runs

  /** m is in one of the two lists and recognises the call. */
  ghost predicate Owns<M>(s: State<M>, m: M, c: string) {
    Listed(s, m) && KnownBy(s.members, m, c)
  }

  ghost predicate OneOwner<M>(s: State<M>) {
    forall m, n, c :: m in s.members && n in s.members && Owns(s, m, c) && Owns(s, n, c) ==> m == n
  }

  ghost predicate MapsDisjoint<M>(s: State<M>) {
    forall m :: m in s.members ==> s.members[m].calls.young !! s.members[m].calls.aged
  }

  /** No member of t knows a call that it did not know in s. */
  ghost predicate LearnsNothing<M>(s: State<M>, t: State<M>) {
    forall m, c :: m in t.members && Owns(t, m, c) ==> m in s.members && Owns(s, m, c)
  }

  lemma LearnsNothingKeepsOwner<M>(s: State<M>, t: State<M>)
    requires OneOwner(s) && LearnsNothing(s, t)
    ensures OneOwner(t)
  {
  }

  /** The one way to a second owner: a new session reuses a call-id that an offline member still holds. */
  ghost predicate Reuses<M>(s: State<M>, e: Event<M>)
    requires Partition(s)
  {
    && e.Command? && IsNew(e.cmd) && s.active != []
    && Owner(s.active, s.members, e.cmd.callId).None?
    && PickProxy(s, e.draw).Some?
    && Owner(s.pending, s.members, e.cmd.callId).Some?
  }

  lemma SteadyLearnsNothing<M>(s: State<M>, t: State<M>)
    requires Steady(s, t)
    ensures LearnsNothing(s, t)
  {
  }

  lemma AgeingLearnsNothing<M>(s: State<M>, m: M)
    requires m in s.members
    ensures LearnsNothing(s, AgeCalls(s, m))
  {
  }

  lemma JoinLearnsNothing<M>(s: State<M>, m: M, r: Record)
    requires m !in s.members && r.calls == NoCalls
    ensures LearnsNothing(s, AddMember(s, m, r))
  {
  }

  lemma EventLearnsNothing<M>(s: State<M>, e: Event<M>)
    requires Partition(s) && !e.Command?
    ensures LearnsNothing(s, Step(s, e))
  {
    if IsMove(e) {
      MoveIsSteady(s, e);
      SteadyLearnsNothing(s, Step(s, e));
    } else if e.Aged? && e.m in s.members {
      AgeingLearnsNothing(s, e.m);
    } else if e.Join? && e.m !in s.members && Blank(e.record) {
      JoinLearnsNothing(s, e.m, e.record);
    }
  }

  lemma OwnedLearnsNothing<M>(s: State<M>, m: M, cmd: Cmd)
    requires Partition(s) && m in s.members && KnownBy(s.members, m, cmd.callId)
    ensures LearnsNothing(s, OwnedState(s, m, cmd))
  {
  }

  lemma NewOwnerExactly<M>(s: State<M>, pick: M, cmd: Cmd)
    requires Partition(s) && OneOwner(s) && pick in s.active
    requires Owner(s.active, s.members, cmd.callId).None?
    ensures OneOwner(NewState(s, Some(pick), cmd)) <==> Owner(s.pending, s.members, cmd.callId).None?
  {
    var t, c := NewState(s, Some(pick), cmd), cmd.callId;
    OwnerIsFirst(s.active, s.members, c);
    OwnerIsFirst(s.pending, s.members, c);
    assert Owns(t, pick, c);
    if Owner(s.pending, s.members, c).Some? {
      assert Owns(t, Owner(s.pending, s.members, c).value, c);
    } else {
      forall m, n, d | m in t.members && n in t.members && Owns(t, m, d) && Owns(t, n, d)
        ensures m == n
      {
        assert d != c ==> Owns(s, m, d) && Owns(s, n, d);
        assert d == c ==> !Owns(s, m, d) && !Owns(s, n, d);
      }
    }
  }

  /** One step keeps single ownership exactly when it is not such a reuse. */
  lemma OneOwnerStepExactly<M>(s: State<M>, e: Event<M>)
    requires Partition(s) && OneOwner(s)
    ensures OneOwner(Step(s, e)) <==> !Reuses(s, e)
  {
    if !e.Command? {
      EventLearnsNothing(s, e);
      LearnsNothingKeepsOwner(s, Step(s, e));
    } else if s.active != [] && IsSession(e.cmd) {
      TargetIsListed(s, e.cmd);
      PickIsListed(s, e.draw);
      match Target(s, e.cmd)
      case Some(m) =>
        OwnedLearnsNothing(s, m, e.cmd);
        LearnsNothingKeepsOwner(s, Step(s, e));
      case None =>
        if IsNew(e.cmd) && PickProxy(s, e.draw).Some? {
          NewOwnerExactly(s, PickProxy(s, e.draw).value, e.cmd);
        }
    }
  }

  ghost predicate NoReuse<M>(es: seq<Event<M>>) {
    forall i :: 0 <= i < |es| ==> !Reuses(Run(es[..i]), es[i])
  }

  /** Over every run without a reuse, each call has at most one owner, online or offline. */
  lemma {:induction false} OneOwnerAlways<M>(es: seq<Event<M>>)
    requires NoReuse(es)
    ensures OneOwner(Run(es))
  {
    if es != [] {
      var before, last := es[..|es| - 1], |es| - 1;
      forall i | 0 <= i < |before| ensures !Reuses(Run(before[..i]), before[i]) {
        assert before[..i] == es[..i];
      }
      OneOwnerAlways(before);
      assert !Reuses(Run(es[..last]), es[last]);
      OneOwnerStepExactly(Run(before), es[last]);
    }
  }

  /** The two generations of every member are disjoint after every run, reuse or not. */
  lemma {:induction false} MapsDisjointAlways<M>(es: seq<Event<M>>)
    ensures MapsDisjoint(Run(es))
  {
    if es != [] {
      var before, e := es[..|es| - 1], es[|es| - 1];
      MapsDisjointAlways(before);
      MapsDisjointStep(Run(before), e);
    }
  }

  lemma MapsDisjointStep<M>(s: State<M>, e: Event<M>)
    requires Partition(s) && MapsDisjoint(s)
    ensures MapsDisjoint(Step(s, e))
  {
    if IsMove(e) {
      MoveIsSteady(s, e);
    } else if e.Command? {
      MapsDisjointRoute(s, e.cmd, e.draw);
    }
  }

  lemma MapsDisjointRoute<M>(s: State<M>, cmd: Cmd, draw: Draw)
    requires Partition(s) && MapsDisjoint(s)
    ensures MapsDisjoint(RouteState(s, cmd, draw))
  {
    if s.active != [] && IsSession(cmd) {
      TargetIsListed(s, cmd);
      PickIsListed(s, draw);
      OwnerIsFirst(s.active, s.members, cmd.callId);
      match Target(s, cmd)
      case Some(m) => OwnedKeepsDisjoint(s, m, cmd);
      case None =>
        if IsNew(cmd) {
          NewKeepsDisjoint(s, PickProxy(s, draw), cmd);
        }
    }
  }

  lemma OwnedKeepsDisjoint<M>(s: State<M>, m: M, cmd: Cmd)
    requires MapsDisjoint(s) && m in s.members
    ensures MapsDisjoint(OwnedState(s, m, cmd))
  {
  }

  lemma NewKeepsDisjoint<M>(s: State<M>, pick: Option<M>, cmd: Cmd)
    requires MapsDisjoint(s)
    requires pick.Some? ==> pick.value in s.members && !KnownBy(s.members, pick.value, cmd.callId)
    ensures MapsDisjoint(NewState(s, pick, cmd))
  {
  }

  // --------------------------------------------------------------- routing

  /** The search for an owned call ends at the owner, unless it is for a new session and the owner is offline. */
  lemma OwnedCallTarget<M>(s: State<M>, cmd: Cmd, m: M)
    requires Partition(s) && OneOwner(s)
    requires Owns(s, m, cmd.callId)
    ensures Target(s, cmd) == Some(m) <==> m in s.active || !IsNew(cmd)
  {
    OwnerIsFirst(s.active, s.members, cmd.callId);
    OwnerIsFirst(s.pending, s.members, cmd.callId);
    var a, p := Owner(s.active, s.members, cmd.callId), Owner(s.pending, s.members, cmd.callId);
    assert Owns(s, m, cmd.callId);
    assert a.Some? ==> Owns(s, a.value, cmd.callId);
    assert p.Some? ==> Owns(s, p.value, cmd.callId);
  }

  /** The error that keeps the owner from getting the command; a delete is sent as it came. */
  predicate OwnedDeliveryFails(r: Record, relay: Option<Relay>, cmd: Cmd, reparses: bool) {
    cmd.kind != 'D' && DeliveryFails(r, relay, cmd, reparses)
  }

  /** The owner is reached: some member is online, and no new session is opened while the owner is offline. */
  ghost predicate ReachesOwner<M>(s: State<M>, m: M, cmd: Cmd) {
    s.active != [] && (m in s.active || !IsNew(cmd))
  }

  lemma OwnerReached<M>(s: State<M>, cmd: Cmd, reparses: bool, draw: Draw, m: M)
    requires Partition(s) && OneOwner(s) && IsSession(cmd) && Owns(s, m, cmd.callId)
    requires ReachesOwner(s, m, cmd)
    ensures Route(s, cmd, reparses, draw) == RouteOwned(s, m, cmd, reparses)
  {
    OwnedCallTarget(s, cmd, m);
  }

  lemma NewSessionPassesOwner<M>(s: State<M>, cmd: Cmd, reparses: bool, draw: Draw, m: M)
    requires Partition(s) && OneOwner(s) && IsSession(cmd) && Owns(s, m, cmd.callId)
    requires s.active != [] && m !in s.active && IsNew(cmd)
    ensures var pick := PickProxy(s, draw);
      && (pick.Some? ==> pick.value in s.members && pick.value != m)
      && Route(s, cmd, reparses, draw) == RouteNew(s, pick, cmd, reparses)
  {
    PickIsListed(s, draw);
    OwnerIsFirst(s.active, s.members, cmd.callId);
    if Owner(s.active, s.members, cmd.callId).Some? {
      assert Owns(s, Owner(s.active, s.members, cmd.callId).value, cmd.callId);
    }
  }

  /**
    A session command of an owned call is forwarded to the owner exactly when some member is online, it does
    not open a new session while the owner is offline, and its text can be delivered. With no member online it
    is answered E999, and the owner is not even looked for.
  */
  lemma OwnedCallGoesToOwner<M>(s: State<M>, cmd: Cmd, reparses: bool, draw: Draw, m: M)
    requires Partition(s) && OneOwner(s) && IsSession(cmd) && Owns(s, m, cmd.callId)
    ensures var (t, o) := Route(s, cmd, reparses, draw);
      var fails := OwnedDeliveryFails(s.members[m], s.relay, cmd, reparses);
      && (o.Forwarded? && o.to == m <==> ReachesOwner(s, m, cmd) && !fails)
      && (s.active == [] ==> t == s && o == Answered(Word("E999")))
      && (ReachesOwner(s, m, cmd) ==>
            && KnownBy(t.members, m, cmd.callId)
            && (if fails then o.Dropped?
                else if cmd.kind == 'D' then o == Forwarded(m, cmd, m in s.pending)
                else !o.early && DeliveredAs(s.members[m], s.relay, cmd, o.out)))
  {
    if ReachesOwner(s, m, cmd) {
      OwnerReached(s, cmd, reparses, draw, m);
      DeliverDropsExactly(s.members[m], m, s.relay, cmd, reparses);
      if cmd.kind != 'D' && !DeliveryFails(s.members[m], s.relay, cmd, reparses) {
        DeliveredCommand(s.members[m], m, s.relay, cmd, reparses);
      }
    } else if s.active != [] {
      NewSessionPassesOwner(s, cmd, reparses, draw, m);
    }
  }

  /** Sorting the online members changes neither the search for an owned call nor what becomes of its commands. */
  lemma SortChangesNoRouting<M>(s: State<M>, order: seq<M>, cmd: Cmd, reparses: bool, draw: Draw, m: M)
    requires Partition(s) && OneOwner(s) && Owns(s, m, cmd.callId)
    ensures Target(Reorder(s, order), cmd) == Target(s, cmd)
    ensures Partition(Reorder(s, order))
    ensures IsSession(cmd) && (m in s.active || !IsNew(cmd)) ==>
      Route(Reorder(s, order), cmd, reparses, draw).1 == Route(s, cmd, reparses, draw).1
  {
    SortKeepsOwner(s, order, cmd.callId, m);
    var t := Reorder(s, order);
    SortKeepsTarget(s, order, cmd, m);
    if s.active != [] && IsSession(cmd) && (m in s.active || !IsNew(cmd)) {
      OwnerReached(s, cmd, reparses, draw, m);
      OwnerReached(t, cmd, reparses, draw, m);
    }
  }

  lemma SortKeepsOwner<M>(s: State<M>, order: seq<M>, c: string, m: M)
    requires Partition(s) && OneOwner(s) && Owns(s, m, c)
    ensures var t := Reorder(s, order);
      && Partition(t) && OneOwner(t) && Owns(t, m, c)
      && (m in t.active <==> m in s.active) && (t.active == [] <==> s.active == [])
  {
    ReorderKeeps(s, order);
    ReorderIsSteady(s, order);
    SteadyLearnsNothing(s, Reorder(s, order));
    LearnsNothingKeepsOwner(s, Reorder(s, order));
    if multiset(order) == multiset(s.active) {
      PermutationMembers(s.active, order);
    }
  }

  lemma SortKeepsTarget<M>(s: State<M>, order: seq<M>, cmd: Cmd, m: M)
    requires Partition(s) && OneOwner(s) && Owns(s, m, cmd.callId)
    ensures Target(Reorder(s, order), cmd) == Target(s, cmd)
  {
    var t := Reorder(s, order);
    SortKeepsOwner(s, order, cmd.callId, m);
    OwnedCallTarget(s, cmd, m);
    OwnedCallTarget(t, cmd, m);
    OwnerIsFirst(s.active, s.members, cmd.callId);
    OwnerIsFirst(t.active, s.members, cmd.callId);
    if multiset(order) == multiset(s.active) {
      PermutationMembers(s.active, order);
    }
  }

  // ------------------------------------------------- a second owner

  /** A new member object that is online and may take sessions. */
  ghost predicate ReadyToServe(r: Record) {
    Blank(r) && r.online && r.status == ACTIVE && r.params.weight > 0
  }

  lemma SoleReadyIsPicked<M>(s: State<M>, m: M, draw: Draw)
    requires Partition(s) && s.active == [m] && s.members[m].status == ACTIVE
    requires s.members[m].filtered == 0.0 && s.members[m].params.weight > 0
    ensures PickProxy(s, draw) == Some(m)
  {
    var p := s.members[m].params;
    assert CapUtil(0.0, p.capacity) == 0.0;
    assert EffectiveWeight(p.weight, CapUtil(0.0, p.capacity)) > 0.0;
    PickFailsExactly(s, draw);
    PickIsListed(s, draw);
  }

  /** A new session at a cluster whose only online member does not know the call is bound to it. */
  lemma SoleReadyIsBound<M>(s: State<M>, m: M, cmd: Cmd, draw: Draw)
    requires Partition(s) && s.active == [m] && s.members[m].status == ACTIVE
    requires s.members[m].filtered == 0.0 && s.members[m].params.weight > 0
    requires IsNew(cmd) && !KnownBy(s.members, m, cmd.callId)
    ensures Route(s, cmd, true, draw).0 == WithCalls(s, m, Bind(s.members[m].calls, cmd.callId, 'U'))
  {
    OwnerIsFirst(s.active, s.members, cmd.callId);
    SoleReadyIsPicked(s, m, draw);
  }

  /** A cluster with one member, which is online. */
  function Solo<M>(m: M, r: Record): State<M> {
    State([m], [], map[m := r], false, None)
  }

  /** The member of before is offline, and another one has come. */
  function Pair<M>(m: M, r: Record, n: M, q: Record): State<M> {
    State([n], [m], map[m := r, n := q], false, None)
  }

  function TwoSessions<M>(m: M, r: Record, n: M, q: Record, cmd: Cmd, draw: Draw): seq<Event<M>> {
    ([Join(m, r), Command(cmd, draw)] + [Offline(m), Join(n, q)]) + [Command(cmd, draw)]
  }

  lemma JoinEmpty<M>(m: M, r: Record)
    requires Blank(r) && r.online
    ensures Step(Fresh(), Join(m, r)) == Solo(m, r)
  {
    assert Fresh<M>().active + [m] == [m];
  }

  lemma SoloServes<M>(m: M, r: Record, cmd: Cmd, draw: Draw)
    requires ReadyToServe(r) && IsNew(cmd)
    ensures Partition(Solo(m, r))
    ensures Step(Solo(m, r), Command(cmd, draw)) == Solo(m, r.(calls := Bind(NoCalls, cmd.callId, 'U')))
  {
    SoleReadyIsBound(Solo(m, r), m, cmd, draw);
    assert Solo(m, r).members[m := r.(calls := Bind(NoCalls, cmd.callId, 'U'))]
      == map[m := r.(calls := Bind(NoCalls, cmd.callId, 'U'))];
  }

  /** The first member serves the call. */
  lemma AfterFirstSession<M>(m: M, r: Record, cmd: Cmd, draw: Draw)
    requires ReadyToServe(r) && IsNew(cmd)
    ensures Run([Join(m, r), Command(cmd, draw)]) == Solo(m, r.(calls := Bind(NoCalls, cmd.callId, 'U')))
  {
    var a, b := Join(m, r), Command(cmd, draw);
    RunAppend([], [a, b]);
    assert [] + [a, b] == [a, b];
    RunFromTwo(Fresh<M>(), a, b);
    JoinEmpty(m, r);
    SoloServes(m, r, cmd, draw);
  }

  lemma SoloGoesOffline<M>(m: M, r: Record)
    requires r.online && !r.down
    ensures Partition(Solo(m, r))
    ensures Step(Solo(m, r), Offline(m)) == State([], [m], map[m := r.(online := false)], false, None)
  {
    assert RemoveFirst([m], m) == [] && [] + [m] == [m];
    assert Solo(m, r).members[m := r.(online := false)] == map[m := r.(online := false)];
  }

  lemma AnotherJoins<M>(m: M, r: Record, n: M, q: Record)
    requires m != n && !r.online && !r.down && Blank(q) && q.online
    ensures var s := State([], [m], map[m := r], false, None); Partition(s) && Step(s, Join(n, q)) == Pair(m, r, n, q)
  {
    assert map[m := r][n := q] == map[m := r, n := q];
  }

  lemma BeforeSecondSession<M>(m: M, r: Record, n: M, q: Record, cmd: Cmd, draw: Draw)
    requires m != n && ReadyToServe(r) && ReadyToServe(q) && IsNew(cmd)
    ensures Run([Join(m, r), Command(cmd, draw)] + [Offline(m), Join(n, q)])
      == Pair(m, r.(calls := Bind(NoCalls, cmd.callId, 'U'), online := false), n, q)
  {
    var bound := r.(calls := Bind(NoCalls, cmd.callId, 'U'));
    AfterFirstSession(m, r, cmd, draw);
    RunAppend([Join(m, r), Command(cmd, draw)], [Offline(m), Join(n, q)]);
    SoloGoesOffline(m, bound);
    RunFromTwo(Solo(m, bound), Offline(m), Join(n, q));
    AnotherJoins(m, bound.(online := false), n, q);
  }

  /** The picked member does not know the call, and an offline one does. */
  lemma ReuseGivesTwoOwners<M>(m: M, r: Record, n: M, q: Record, cmd: Cmd, draw: Draw)
    requires m != n && !r.online && !r.down && ReadyToServe(q) && IsNew(cmd) && r.calls.Knows(cmd.callId)
    ensures Partition(Pair(m, r, n, q))
    ensures var e := Command(cmd, draw); Reuses(Pair(m, r, n, q), e) && !OneOwner(Step(Pair(m, r, n, q), e))
  {
    var s := Pair(m, r, n, q);
    OwnerIsFirst(s.active, s.members, cmd.callId);
    OwnerIsFirst(s.pending, s.members, cmd.callId);
    assert KnownBy(s.members, m, cmd.callId) && !KnownBy(s.members, n, cmd.callId);
    SoleReadyIsPicked(s, n, draw);
    OneOwnerStepExactly(s, Command(cmd, draw));
  }

  /**
    Such a reuse does occur: two members serve one after the other, and a session with the same call-id is
    opened on each.
  */
  lemma ReuseHappens<M>(m: M, r: Record, n: M, q: Record, cmd: Cmd, draw: Draw)
    requires m != n && ReadyToServe(r) && ReadyToServe(q) && IsNew(cmd)
    ensures var es := TwoSessions(m, r, n, q, cmd, draw); Reuses(Run(es[..4]), es[4]) && !OneOwner(Run(es))
  {
    var es := TwoSessions(m, r, n, q, cmd, draw);
    assert es[..4] == [Join(m, r), Command(cmd, draw)] + [Offline(m), Join(n, q)];
    assert es[..5] == es;
    BeforeSecondSession(m, r, n, q, cmd, draw);
    ReuseGivesTwoOwners(m, r.(calls := Bind(NoCalls, cmd.callId, 'U'), online := false), n, q, cmd, draw);
    RunStep(es, 4);
  }

  // ------------------------------------------------- nobody online

  function LoneCall<M>(m: M, r: Record, cmd: Cmd, draw: Draw): seq<Event<M>> {
    [Join(m, r), Command(cmd, draw)] + [Offline(m)]
  }

  lemma AfterLoneCall<M>(m: M, r: Record, cmd: Cmd, draw: Draw)
    requires ReadyToServe(r) && IsNew(cmd)
    ensures Run(LoneCall(m, r, cmd, draw))
      == State([], [m], map[m := r.(calls := Bind(NoCalls, cmd.callId, 'U'), online := false)], false, None)
  {
    var first := [Join(m, r), Command(cmd, draw)];
    var bound := r.(calls := Bind(NoCalls, cmd.callId, 'U'));
    assert LoneCall(m, r, cmd, draw)[..2] == first;
    assert LoneCall(m, r, cmd, draw)[..3] == LoneCall(m, r, cmd, draw);
    AfterFirstSession(m, r, cmd, draw);
    RunStep(LoneCall(m, r, cmd, draw), 2);
    SoloGoesOffline(m, bound);
  }

  /** Such a refusal does occur: the only member goes offline, and the next command of its call is answered E999. */
  lemma OwnedCallIsRefused<M>(m: M, r: Record, cmd: Cmd, draw: Draw, next: Cmd, reparses: bool, draw': Draw)
    requires ReadyToServe(r) && IsNew(cmd) && IsSession(next) && !IsNew(next) && next.callId == cmd.callId
    ensures var s := Run(LoneCall(m, r, cmd, draw));
      Owns(s, m, next.callId) && Route(s, next, reparses, draw').1 == Answered(Word("E999"))
  {
    AfterLoneCall(m, r, cmd, draw);
  }
}
