/**
  The objects of the dispatcher: a cluster and its members, updated in place
  as the code does. Every method is tied to the step function of the same
  operation, on the abstract state that View gives.
*/
module Objects {
  import opened Common
  import opened Lists
  import opened Scheduler
  import opened Sessions
  import opened Membership
  import opened Routing
  import Sweep
  import opened Reload
  import Notify

  class Member {
    const name: string
    const isLocal: bool
    var wdnt: bool
    var params: Params
    var status: Status
    var call_id_map: set<string>
    var call_id_map_old: set<string>
    var on_state_change: Cluster?      // the cluster whose rtpp_status_change is registered
    var on_active_update: Cluster?     // the cluster whose rtpp_active_change is registered
    var asess_filtered: real
    var online: bool
    var shut: bool
    var active_sessions: int

    function View(): Record
      reads this
    {
      Record(name, params, status, isLocal, wdnt, CallMaps(call_id_map, call_id_map_old), online, shut,
             active_sessions, asess_filtered, on_active_update != null)
    }

    constructor (name: string, isLocal: bool, params: Params, status: Status, active_sessions: int)
      ensures View() == Record(name, params, status, isLocal, false, NoCalls, false, false, active_sessions, 0.0, false)
      ensures on_state_change == null
    {
      this.name, this.isLocal, this.params, this.status := name, isLocal, params, status;
      this.active_sessions := active_sessions;
      wdnt, online, shut := false, false, false;
      call_id_map, call_id_map_old := {}, {};
      on_state_change, on_active_update := null, null;
      asess_filtered := 0.0;
    }

    method IsYours(call_id: string) returns (yours: bool)
      modifies this`call_id_map, this`call_id_map_old
      ensures yours <==> old(View()).calls.Knows(call_id)
      ensures View() == old(View()).(calls := Touch(old(View()).calls, call_id))
    {
      if call_id in call_id_map {
        return true;
      }
      yours := call_id in call_id_map_old;
      if yours {
        call_id_map := call_id_map + {call_id};
        call_id_map_old := call_id_map_old - {call_id};
      }
    }

    method BindSession(call_id: string, cmd_type: char)
      modifies this`call_id_map, this`call_id_map_old
      ensures View() == old(View()).(calls := Bind(old(View()).calls, call_id, cmd_type))
    {
      if cmd_type == 'D' {
        call_id_map := call_id_map + {call_id};
      } else {
        call_id_map_old := call_id_map_old + {call_id};
      }
    }

    method UnbindSession(call_id: string)
      modifies this`call_id_map, this`call_id_map_old
      ensures View() == old(View()).(calls := Unbind(old(View()).calls, call_id))
    {
      call_id_map := call_id_map - {call_id};
      call_id_map_old := call_id_map_old + {call_id};
    }

    method CallIdMapAging()
      modifies this`call_id_map, this`call_id_map_old
      ensures View() == if old(shut) then old(View()) else old(View()).(calls := Age(old(View()).calls))
    {
      if shut {
        return;
      }
      if |call_id_map| < AGING_THRESHOLD {
        call_id_map_old := {};
        return;
      }
      call_id_map_old := call_id_map;
      call_id_map := {};
    }

    method Shutdown()
      modifies this`shut
      ensures View() == old(View()).(down := true)
    {
      shut := true;
    }

    /** The base client goes online, or fails to. */
    method BaseGoOnline(up: bool)
      requires on_state_change != null && this in on_state_change.known
      modifies this`online
      ensures View() == old(View()).(online := old(online) || up)
      ensures on_state_change.View() == Put(old(on_state_change.View()), this, View())
    {
      ghost var s := on_state_change.View();
      online := online || up;
      assert on_state_change.View() == Put(s, this, View());
    }

    method BaseGoOffline()
      requires on_state_change != null && this in on_state_change.known
      modifies this`online
      ensures View() == old(View()).(online := false)
      ensures on_state_change.View() == Put(old(on_state_change.View()), this, View())
    {
      ghost var s := on_state_change.View();
      online := false;
      assert on_state_change.View() == Put(s, this, View());
    }

    method BaseUpdateActive(n: int)
      requires on_state_change != null && this in on_state_change.known
      modifies this`active_sessions
      ensures View() == old(View()).(sessions := n)
      ensures on_state_change.View() == Put(old(on_state_change.View()), this, View())
    {
      ghost var s := on_state_change.View();
      active_sessions := n;
      assert on_state_change.View() == Put(s, this, View());
    }

    /** The base client learns whether the proxy supports wildcard disconnect notification. */
    method BaseDetect(supported: bool)
      requires on_state_change != null && this in on_state_change.known
      modifies this`wdnt
      ensures View() == old(View()).(wdnt := supported)
      ensures on_state_change.View() == Membership.Detect(old(on_state_change.View()), this, supported)
    {
      ghost var s := on_state_change.View();
      wdnt := supported;
      assert on_state_change.View() == Put(s, this, View());
    }

    method ApplyFilter(n: int)
      requires on_state_change != null && this in on_state_change.known
      modifies this`asess_filtered
      ensures View() == old(View()).(filtered := Filter(old(asess_filtered), n))
      ensures on_state_change.View() == Put(old(on_state_change.View()), this, View())
    {
      ghost var s := on_state_change.View();
      asess_filtered := Filter(asess_filtered, n);
      assert on_state_change.View() == Put(s, this, View());
    }

    /** `up`: whether the base client is online after its own GoOnline. */
    method GoOnline(up: bool)
      requires on_state_change != null && on_state_change.Wired() && this in on_state_change.known
      modifies this`online, on_state_change`active, on_state_change`pending
      ensures on_state_change.Wired()
      ensures on_state_change.View() == Membership.GoOnline(old(on_state_change.View()), this, up)
    {
      var online_pre := online;
      BaseGoOnline(up);
      if online_pre || !online {
        return;
      }
      on_state_change.MoveToActive(this);
    }

    method GoOffline()
      requires on_state_change != null && on_state_change.Wired() && this in on_state_change.known
      modifies this`online, on_state_change`active, on_state_change`pending
      ensures on_state_change.Wired()
      ensures on_state_change.View() == Membership.GoOffline(old(on_state_change.View()), this)
    {
      if online {
        on_state_change.MoveToPending(this);
      }
      BaseGoOffline();
    }

    /** A heartbeat with the number of active sessions. */
    method UpdateActive(n: int)
      requires on_state_change != null && on_state_change.Wired() && this in on_state_change.known
      modifies this`asess_filtered, this`active_sessions, this`shut, on_state_change`active, on_state_change`pending
      ensures on_state_change.Wired()
      ensures on_state_change.View() == Membership.Report(old(on_state_change.View()), this, n)
    {
      ApplyFilter(n);
      if active_sessions != n && on_active_update != null {
        on_active_update.RtppActiveChange(this, n);
      }
      BaseUpdateActive(n);
    }

    function GetCapUtil(): real
      reads this
    {
      CapUtil(asess_filtered, params.capacity)
    }
  }

  class Cluster {
    var active: seq<Member>
    var pending: seq<Member>
    var capacity_limit_soft: bool
    var dnrelay: Option<Relay>
    ghost var known: set<Member>       // every member ever added

    ghost function View(): State<Member>
      reads this, known
    {
      State(active, pending, map m | m in known :: m.View(), capacity_limit_soft, dnrelay)
    }

    /** Every member reports to this cluster. */
    ghost predicate Wired()
      reads this, known
    {
      forall m :: m in known ==>
          m.on_state_change == this && (m.on_active_update == null || m.on_active_update == this)
    }

    constructor ()
      ensures Wired() && View() == State([], [], map[], false, None) && known == {}
    {
      active, pending, capacity_limit_soft, dnrelay := [], [], false, None;
      known := {};
    }

    method MoveToActive(rtpp: Member)
      modifies this`active, this`pending
      ensures View() == Membership.MoveToActive(old(View()), rtpp)
    {
      var i := 0;
      while i < |pending|
        invariant 0 <= i <= |pending| && rtpp !in pending[..i]
      {
        if pending[i] == rtpp {
          SpliceIsRemoveFirst(pending, i);
          pending := pending[..i] + pending[i + 1..];
          active := active + [rtpp];
          return;
        }
        i := i + 1;
      }
    }

    method MoveToPending(rtpp: Member)
      modifies this`active, this`pending
      ensures View() == Membership.MoveToPending(old(View()), rtpp)
    {
      var i := 0;
      while i < |active|
        invariant 0 <= i <= |active| && rtpp !in active[..i]
      {
        if active[i] == rtpp {
          SpliceIsRemoveFirst(active, i);
          active := active[..i] + active[i + 1..];
          pending := pending + [rtpp];
          return;
        }
        i := i + 1;
      }
    }

    method AppendActive(rtpp: Member)
      modifies this`active
      ensures View() == old(View()).(active := old(active) + [rtpp])
    {
      active := active + [rtpp];
    }

    method AppendPending(rtpp: Member)
      modifies this`pending
      ensures View() == old(View()).(pending := old(pending) + [rtpp])
    {
      pending := pending + [rtpp];
    }

    /** The member is started and reports to this cluster. */
    method Enrol(member: Member, up: bool)
      requires Wired() && member !in known && member.on_active_update == null
      modifies this`known, member`on_state_change, member`online
      ensures known == old(known) + {member} && Wired()
      ensures member.View() == old(member.View()).(online := old(member.online) || up)
      ensures View() == Put(old(View()), member, member.View())
    {
      member.on_state_change := this;
      member.online := member.online || up;
      known := known + {member};
    }

    /** `up`: whether the member is online once its client has been started. */
    method AddMember(member: Member, up: bool)
      requires Wired() && member !in known && member.on_active_update == null
      modifies this, member`on_state_change, member`online
      ensures known == old(known) + {member} && Wired()
      ensures View() == Membership.AddMember(old(View()), member,
        old(member.View()).(online := old(member.online) || up))
    {
      Enrol(member, up);
      if member.online {
        AppendActive(member);
      } else {
        AppendPending(member);
      }
    }

    method RemovePending(rtpp: Member)
      modifies this`pending
      ensures View() == old(View()).(pending := RemoveFirst(old(pending), rtpp))
    {
      var i := 0;
      while i < |pending|
        invariant 0 <= i <= |pending| && rtpp !in pending[..i]
      {
        if pending[i] == rtpp {
          SpliceIsRemoveFirst(pending, i);
          pending := pending[..i] + pending[i + 1..];
          return;
        }
        i := i + 1;
      }
      RemoveAbsent(pending, rtpp);
    }

    method RemoveActive(rtpp: Member)
      modifies this`active
      ensures View() == old(View()).(active := RemoveFirst(old(active), rtpp))
    {
      var i := 0;
      while i < |active|
        invariant 0 <= i <= |active| && rtpp !in active[..i]
      {
        if active[i] == rtpp {
          SpliceIsRemoveFirst(active, i);
          active := active[..i] + active[i + 1..];
          return;
        }
        i := i + 1;
      }
      RemoveAbsent(active, rtpp);
    }

    method IsInActive(rtpp: Member) returns (found: bool)
      ensures found <==> rtpp in active
    {
      for i := 0 to |active|
        invariant rtpp !in active[..i]
      {
        if rtpp == active[i] {
          return true;
        }
      }
      found := false;
    }

    method IsInPending(rtpp: Member) returns (found: bool)
      ensures found <==> rtpp in pending
    {
      for i := 0 to |pending|
        invariant rtpp !in pending[..i]
      {
        if rtpp == pending[i] {
          return true;
        }
      }
      found := false;
    }

    /** Shutdown of a member that has left the lists, seen from the cluster. */
    method ShutMember(rtpp: Member)
      requires rtpp in known
      modifies rtpp`shut
      ensures View() == Membership.ShutDown(old(View()), rtpp)
    {
      ghost var s := View();
      rtpp.Shutdown();
      assert View() == Put(s, rtpp, rtpp.View());
    }

    method StartDraining(rtpp: Member)
      requires rtpp in known
      modifies rtpp`status, rtpp`on_active_update
      ensures rtpp.on_active_update == this
      ensures View() == Put(old(View()), rtpp, old(rtpp.View()).(status := DRAINING, watched := true))
    {
      ghost var s := View();
      rtpp.status := DRAINING;
      rtpp.on_active_update := this;
      assert View() == Put(s, rtpp, rtpp.View());
    }

    method BringDown(rtpp: Member)
      requires Wired() && rtpp in known
      modifies this`active, this`pending, rtpp`shut, rtpp`status, rtpp`on_active_update
      ensures Wired()
      ensures View() == Membership.BringDown(old(View()), rtpp)
    {
      var inActive := IsInActive(rtpp);
      if inActive {
        if |rtpp.call_id_map| == 0 || rtpp.active_sessions <= 0 {
          RemoveActive(rtpp);
          ShutMember(rtpp);
          return;
        }
        StartDraining(rtpp);
        return;
      }
      RemovePending(rtpp);
      ShutMember(rtpp);
    }

    method RtppActiveChange(rtpp: Member, active_sessions: int)
      requires Wired() && rtpp in known
      modifies this`active, this`pending, rtpp`shut
      ensures Wired()
      ensures View() == Membership.ActiveChange(old(View()), rtpp, active_sessions)
    {
      if rtpp.status == DRAINING && (|rtpp.call_id_map| == 0 || active_sessions <= 0) {
        var inPending := IsInPending(rtpp);
        if inPending {
          RemovePending(rtpp);
        } else {
          RemoveActive(rtpp);
        }
        ShutMember(rtpp);
      }
    }

    /** Whether the reload has seen this member. */
    method IsAmong(rtpp: Member, new_rtpps: seq<Member>) returns (found: bool)
      ensures found <==> rtpp in new_rtpps
    {
      for i := 0 to |new_rtpps|
        invariant rtpp !in new_rtpps[..i]
      {
        if rtpp == new_rtpps[i] {
          return true;
        }
      }
      found := false;
    }

    /** bring_down for a member that has just been read from `all`; what is left to read may shift. */
    method BringDownRead(all: seq<Member>, rtpp: Member, shared: bool) returns (rest: seq<Member>)
      requires Wired() && Partition(View()) && rtpp in known && forall m :: m in all ==> m in known
      modifies this`active, this`pending, known`shut, known`status, known`on_active_update
      ensures Wired() && Partition(View())
      ensures View() == Membership.BringDown(old(View()), rtpp)
      ensures rest == Sweep.Reread(shared, active, all) && |rest| == |all| && forall m :: m in rest ==> m in known
    {
      ghost var s := View();
      BringDownKeeps(s, rtpp);
      BringDown(rtpp);
      Sweep.ReadLength(shared, active, all);
      rest := if shared && |active| <= |all| then active + all[|active|..] else all;
      assert forall m :: m in active ==> m in View().members;
    }

    /** One iteration of the last loop of a reload. */
    method SweepOne(all: seq<Member>, i: nat, new_rtpps: seq<Member>, shared: bool) returns (rest: seq<Member>)
      requires Wired() && Partition(View()) && i < |all| && forall m :: m in all ==> m in known
      modifies this`active, this`pending, known`shut, known`status, known`on_active_update
      ensures Wired() && Partition(View())
      ensures |rest| == |all| && forall m :: m in rest ==> m in known
      ensures Sweep.SweepFrom(shared, View(), rest, i + 1, Kept(new_rtpps)).0
        == Sweep.SweepFrom(shared, old(View()), all, i, Kept(new_rtpps)).0
    {
      var rtpp := all[i];
      var found := IsAmong(rtpp, new_rtpps);
      rest := all;
      if !found {
        rest := BringDownRead(all, rtpp, shared);
      }
    }

    /** The last loop of a reload, over append(active, pending...); room is the capacity of active. */
    method BringDownRest(new_rtpps: seq<Member>, room: nat)
      requires Wired() && Partition(View())
      modifies this`active, this`pending, known`shut, known`status, known`on_active_update
      ensures Wired() && Partition(View())
      ensures View() == Sweep.SweepAll(Sweep.Shares(old(View()), room), old(View()), Kept(new_rtpps)).0
    {
      ListedAreKnown();
      var shared := |pending| == 0 || |active| + |pending| <= room;
      ghost var final := Sweep.SweepAll(shared, View(), Kept(new_rtpps)).0;
      var all := active + pending;
      ghost var n := |all|;
      for i := 0 to |active + pending|
        invariant Wired() && Partition(View()) && |all| == n
        invariant forall m :: m in all ==> m in known
        invariant Sweep.SweepFrom(shared, View(), all, i, Kept(new_rtpps)).0 == final
      {
        all := SweepOne(all, i, new_rtpps, shared);
      }
    }

    method RtppByName(name: string) returns (r: Option<Member>)
      requires forall m :: m in active + pending ==> m in known
      ensures r == ByName(active + pending, View().members, name)
      ensures r.Some? ==> r.value in known
    {
      var all := active + pending;
      ghost var ms := View().members;
      for i := 0 to |all|
        invariant ByName(all[i..], ms, name) == ByName(all, ms, name)
      {
        assert all[i..][1..] == all[i + 1..];
        assert all[i] in all && ms[all[i]] == all[i].View();
        if all[i].name == name {
          return Some(all[i]);
        }
      }
      r := None;
    }

    method Reconfigure(rtpp: Member, params: Params, status: Status)
      requires Wired() && rtpp in known
      modifies rtpp`params, rtpp`status
      ensures Wired()
      ensures View() == Membership.Configure(old(View()), rtpp, params, status)
    {
      ghost var s := View();
      rtpp.params := params;
      rtpp.status := status;
      assert View() == Put(s, rtpp, rtpp.View());
    }

    /** A member object that was not there before. */
    method NewProxy(c: ProxyConf, client: Client) returns (rtpp: Member)
      requires Wired()
      modifies this
      ensures Wired() && fresh(rtpp) && known == old(known) + {rtpp}
      ensures View() == Membership.AddMember(old(View()), rtpp, NewRecord(c, NewcomerOf(rtpp, client)))
    {
      ghost var s := View();
      rtpp := new Member(c.name, client.isLocal, c.params, StatusFromString(c.status), client.sessions);
      assert View() == s;
      AddMember(rtpp, client.up);
    }

    /** One proxy of the configuration. */
    method LoadProxy(c: ProxyConf, client: Client) returns (rtpp: Member)
      requires Wired() && Partition(View())
      modifies this, known`params, known`status
      ensures Wired() && old(known) <= known && fresh(known - old(known))
      ensures (View(), rtpp) == ApplyOne(old(View()), c, NewcomerOf(rtpp, client))
      ensures !HasName(old(View()), c.name) ==> rtpp !in old(known)
    {
      ListedAreKnown();
      ByNameIsHasName(View(), c.name);
      var found := RtppByName(c.name);
      if found.Some? {
        Reconfigure(found.value, c.params, StatusFromString(c.status));
        return found.value;
      }
      rtpp := NewProxy(c, client);
    }

    lemma ListedAreKnown()
      requires Partition(View())
      ensures forall m :: m in active + pending ==> m in known
    {
      forall m | m in active + pending ensures m in known {
        assert m in View().active || m in View().pending;
        assert m in View().members;
      }
    }

    /** One more proxy, after those in new_rtpps. */
    method LoadNext(cs: seq<ProxyConf>, clients: seq<Client>, new_rtpps: seq<Member>, ghost s: State<Member>)
      returns (rtpp: Member)
      requires Wired() && Collected(s, View(), cs, new_rtpps, clients)
      requires |new_rtpps| < |cs| && Supported(cs[|new_rtpps|].protocol)
      modifies this, known`params, known`status
      ensures Wired() && old(known) <= known && fresh(known - old(known))
      ensures Collected(s, View(), cs, new_rtpps + [rtpp], clients)
      ensures SupportedPrefix(cs[|new_rtpps|..]) == 1 + SupportedPrefix(cs[|new_rtpps| + 1..])
    {
      ghost var t := View();
      SupportedFrom(cs, |new_rtpps|);
      rtpp := LoadProxy(cs[|new_rtpps|], clients[|new_rtpps|]);
      CollectedNext(s, t, View(), cs, new_rtpps, clients, rtpp);
    }

    /** The loop over the proxies of a cluster; it stops before the first unsupported protocol. */
    method LoadProxies(cs: seq<ProxyConf>, clients: seq<Client>) returns (new_rtpps: seq<Member>)
      requires Wired() && Partition(View()) && |clients| == |cs|
      modifies this, known`params, known`status
      ensures Wired() && old(known) <= known && fresh(known - old(known))
      ensures |new_rtpps| == SupportedPrefix(cs)
      ensures Collected(old(View()), View(), cs, new_rtpps, clients)
    {
      ghost var s := View();
      new_rtpps := [];
      assert Collected(s, s, cs, [], clients) by {
        NothingCollected(s, cs, clients);
      }
      var n := 0;
      while n < |cs| && Supported(cs[n].protocol)
        invariant 0 <= n == |new_rtpps| <= |cs|
        invariant n + SupportedPrefix(cs[n..]) == SupportedPrefix(cs)
        invariant Wired() && old(known) <= known && fresh(known - old(known))
        invariant Collected(s, View(), cs, new_rtpps, clients)
      {
        var rtpp := LoadNext(cs, clients, new_rtpps, s);
        new_rtpps := new_rtpps + [rtpp];
        n := n + 1;
      }
    }

    /** The body of a reload for a cluster that is there; false when it stops at an unsupported protocol. */
    method ReloadFrom(cs: seq<ProxyConf>, clients: seq<Client>, room: nat) returns (ok: bool, new_rtpps: seq<Member>)
      requires Wired() && Partition(View()) && |clients| == |cs|
      modifies this, known`params, known`status, known`shut, known`on_active_update
      ensures Wired() && Partition(View())
      ensures |new_rtpps| == SupportedPrefix(cs) && (ok <==> SupportedPrefix(cs) == |cs|)
      ensures !ok ==> (View(), new_rtpps) == ApplyAll(old(View()), cs[..|new_rtpps|], Newcomers(new_rtpps, clients))
      ensures ok ==> (View(), new_rtpps) == ReloadMembers(room, old(View()), cs, Newcomers(new_rtpps, clients))
      ensures ok && UniqueNames(old(View())) && DistinctNames(cs) ==>
        (Reconciled(old(View()), View(), cs, new_rtpps, Newcomers(new_rtpps, clients)) <==>
          !WillShare(room, old(View()), cs, Newcomers(new_rtpps, clients))
          || !LeavesUnwanted(old(View()), cs, Newcomers(new_rtpps, clients)))
    {
      ghost var s := View();
      new_rtpps := LoadProxies(cs, clients);
      ok := |new_rtpps| == |cs|;
      if ok {
        assert cs[..|cs|] == cs;
        BringDownRest(new_rtpps, room);
        if UniqueNames(s) && DistinctNames(cs) {
          ReloadReconcilesExactly(room, s, cs, Newcomers(new_rtpps, clients));
        }
      }
    }

    /** The reload of a cluster that is there: its own settings first, then its members. */
    method ReloadCluster(soft: bool, relay: Option<Relay>, cs: seq<ProxyConf>, clients: seq<Client>, room: nat)
      returns (ok: bool, new_rtpps: seq<Member>)
      requires Wired() && Partition(View()) && |clients| == |cs|
      modifies this, known`params, known`status, known`shut, known`on_active_update
      ensures Wired() && Partition(View())
      ensures |new_rtpps| == SupportedPrefix(cs) && (ok <==> SupportedPrefix(cs) == |cs|)
      ensures var s := old(View()).(soft := soft, relay := relay); var ns := Newcomers(new_rtpps, clients);
        && (ok ==> (View(), new_rtpps) == ReloadMembers(room, s, cs, ns))
        && (!ok ==> (View(), new_rtpps) == ApplyAll(s, cs[..|new_rtpps|], ns))
        && (ok && UniqueNames(s) && DistinctNames(cs) ==>
              (Reconciled(s, View(), cs, new_rtpps, ns) <==> !WillShare(room, s, cs, ns) || !LeavesUnwanted(s, cs, ns)))
    {
      ghost var s := View().(soft := soft, relay := relay);
      capacity_limit_soft, dnrelay := soft, relay;
      assert View() == s;
      ok, new_rtpps := ReloadFrom(cs, clients, room);
    }

    method ShutAll(list: seq<Member>)
      requires forall m :: m in list ==> m in known
      modifies known`shut
      ensures forall m :: m in known ==> m.View() == if m in list then old(m.View()).(down := true) else old(m.View())
    {
      for i := 0 to |list|
        invariant forall m :: m in known ==> m.View() == if m in list[..i] then old(m.View()).(down := true)
          else old(m.View())
      {
        assert list[i] in list;
        list[i].Shutdown();
      }
    }

    /** Shutdown of the whole cluster. */
    method Shutdown()
      requires Partition(View())
      modifies this`active, this`pending, known`shut
      ensures View() == Membership.Close(old(View()))
    {
      ghost var s := View();
      var all := active + pending;
      forall m | m in all ensures m in known {
        assert m in s.active || m in s.pending;
        assert m in s.members;
      }
      ShutAll(all);
      active := [];
      pending := [];
    }

    /** The list built by the first loop of pick_proxy. */
    method CollectCandidates() returns (cs: seq<Candidate<Member>>)
      requires forall m :: m in active ==> m in known
      ensures cs == Candidates(active, View().members)
    {
      cs := [];
      ghost var ms := View().members;
      for i := 0 to |active|
        invariant cs + Candidates(active[i..], ms) == Candidates(active, ms)
      {
        var rtpp := active[i];
        assert active[i..][1..] == active[i + 1..];
        assert ms[rtpp] == rtpp.View();
        if rtpp.status == ACTIVE && rtpp.online {
          cs := cs + [Candidate(rtpp, EffectiveWeight(rtpp.params.weight, rtpp.GetCapUtil()))];
        }
      }
    }

    method PickProxy(draw: Draw) returns (r: Option<Member>)
      requires forall m :: m in active ==> m in known
      ensures r == Routing.PickProxy(View(), draw)
    {
      var cs := CollectCandidates();
      r := Pick(cs, capacity_limit_soft, draw);
      PicksUnique(cs, capacity_limit_soft, draw, r, Choice(cs, capacity_limit_soft, draw));
    }

    /** isYours seen from the cluster. */
    method Ask(rtpp: Member, call_id: string) returns (yours: bool)
      requires rtpp in known
      modifies rtpp`call_id_map, rtpp`call_id_map_old
      ensures yours <==> old(View()).members[rtpp].calls.Knows(call_id)
      ensures View() == WithCalls(old(View()), rtpp, Touch(old(View()).members[rtpp].calls, call_id))
      ensures !yours ==> View() == old(View())
    {
      ghost var s := View();
      yours := rtpp.IsYours(call_id);
      assert View() == Put(s, rtpp, rtpp.View());
      assert !yours ==> rtpp.View() == s.members[rtpp];
    }

    method BindIn(rtpp: Member, call_id: string, cmd_type: char)
      requires rtpp in known
      modifies rtpp`call_id_map, rtpp`call_id_map_old
      ensures View() == WithCalls(old(View()), rtpp, Bind(old(View()).members[rtpp].calls, call_id, cmd_type))
    {
      ghost var s := View();
      rtpp.BindSession(call_id, cmd_type);
      assert View() == Put(s, rtpp, rtpp.View());
    }

    method UnbindIn(rtpp: Member, call_id: string)
      requires rtpp in known
      modifies rtpp`call_id_map, rtpp`call_id_map_old
      ensures View() == WithCalls(old(View()), rtpp, Unbind(old(View()).members[rtpp].calls, call_id))
    {
      ghost var s := View();
      rtpp.UnbindSession(call_id);
      assert View() == Put(s, rtpp, rtpp.View());
    }

    /** The search loop of up_command; the query itself moves the call to the young generation. */
    method FindOwner(list: seq<Member>, call_id: string) returns (r: Option<Member>)
      requires forall m :: m in list ==> m in known
      modifies (set m | m in list)`call_id_map, (set m | m in list)`call_id_map_old
      ensures r == Owner(list, old(View()).members, call_id)
      ensures r.Some? ==> r.value in list && r.value in known
      ensures View() == if r.None? then old(View())
                        else WithCalls(old(View()), r.value, Touch(old(View()).members[r.value].calls, call_id))
    {
      ghost var s := View();
      for i := 0 to |list|
        invariant View() == s
        invariant Owner(list[i..], s.members, call_id) == Owner(list, s.members, call_id)
      {
        assert list[i..][1..] == list[i + 1..];
        var yours := Ask(list[i], call_id);
        if yours {
          return Some(list[i]);
        }
      }
      r := None;
    }

    method OnlineMembers() returns (online: seq<Member>)
      requires forall m :: m in active ==> m in known
      ensures online == OnlineOf(active, View().members)
      ensures forall m :: m in online ==> m in known
    {
      online := [];
      ghost var ms := View().members;
      for i := 0 to |active|
        invariant forall m :: m in online ==> m in known
        invariant online + OnlineOf(active[i..], ms) == OnlineOf(active, ms)
      {
        assert active[i..][1..] == active[i + 1..];
        assert ms[active[i]] == active[i].View();
        if active[i].online {
          online := online + [active[i]];
        }
      }
    }

    /** The reply to the brief information request. */
    method TotalSessions(online: seq<Member>) returns (n: int)
      requires forall m :: m in online ==> m in known
      ensures n == SumSessions(online, View().members)
    {
      n := 0;
      ghost var ms := View().members;
      for i := 0 to |online|
        invariant n + SumSessions(online[i..], ms) == SumSessions(online, ms)
      {
        assert online[i..][1..] == online[i + 1..];
        assert ms[online[i]] == online[i].View();
        if online[i].active_sessions >= 0 {
          n := n + online[i].active_sessions;
        }
      }
    }

    /** The send to one member of a broadcast; none when the text does not parse again. */
    method SendPart(rtpp: Member, cmd: Cmd, orig_cmd: Cmd, reparses: bool) returns (part: seq<(Member, Cmd)>)
      requires orig_cmd == BroadcastForm(cmd)
      ensures part == OnePart(rtpp, rtpp.View(), cmd, reparses)
    {
      if (cmd.kind == 'U' || cmd.kind == 'L') && rtpp.params.lan != "" {
        if !reparses {
          return [];
        }
        return [(rtpp, orig_cmd.(localIP := rtpp.params.lan, destIP := ""))];
      }
      part := [(rtpp, orig_cmd)];
    }

    /** One iteration of the loop below; true when it stops. */
    method SendOne(online: seq<Member>, i: nat, sent: seq<(Member, Cmd)>, cmd: Cmd, orig_cmd: Cmd, reparses: bool,
                   ghost ms: map<Member, Record>)
      returns (parts: seq<(Member, Cmd)>, stop: bool)
      requires i < |online| && online[i] in ms && ms[online[i]] == online[i].View() && orig_cmd == BroadcastForm(cmd)
      ensures sent + SessionParts(online[i..], ms, cmd, reparses) ==
        if stop then parts else parts + SessionParts(online[i + 1..], ms, cmd, reparses)
    {
      var part := SendPart(online[i], cmd, orig_cmd, reparses);
      parts, stop := sent + part, part == [];
      PartsFrom(sent, online, i, ms, cmd, reparses);
    }

    /** The sends of a session broadcast; ms holds the records of the members as they are. */
    method SendToAll(online: seq<Member>, cmd: Cmd, reparses: bool, ghost ms: map<Member, Record>)
      returns (parts: seq<(Member, Cmd)>)
      requires forall m :: m in online ==> m in ms && ms[m] == m.View()
      ensures parts == SessionParts(online, ms, cmd, reparses)
    {
      parts := [];
      ghost var final := SessionParts(online, ms, cmd, reparses);
      var orig_cmd := BroadcastForm(cmd);
      assert online[0..] == online && online[|online|..] == [];
      for i := 0 to |online|
        invariant parts + SessionParts(online[i..], ms, cmd, reparses) == final
      {
        var stop;
        parts, stop := SendOne(online, i, parts, cmd, orig_cmd, reparses, ms);
        if stop {
          return;
        }
      }
    }

    method SendStatsToAll(online: seq<Member>, cmd: Cmd) returns (parts: seq<(Member, Cmd)>)
      ensures parts == StatsParts(online, cmd)
    {
      parts := [];
      var out := cmd;
      if cmd.opts == "v" || cmd.opts == "V" {
        out := cmd.(opts := "");
      }
      for i := 0 to |online|
        invariant parts + StatsParts(online[i..], cmd) == StatsParts(online, cmd)
      {
        assert online[i..][1..] == online[i + 1..];
        parts := parts + [(online[i], out)];
      }
    }

    /** The notify rewriting and the LAN rewriting for one member. */
    method SendTo(rtpp: Member, cmd: Cmd, reparses: bool) returns (o: Outcome<Member>)
      ensures o == Deliver(rtpp.View(), rtpp, dnrelay, cmd, reparses)
    {
      var out := cmd;
      if (cmd.kind == 'U' || cmd.kind == 'L') && cmd.notifySocket != "" {
        if rtpp.wdnt && dnrelay.Some? && !rtpp.isLocal && dnrelay.value.prefix <= cmd.notifySocket {
          var notify_tag := Notify.QueryUnescape(cmd.notifyTag);
          if notify_tag.None? {
            return Dropped;
          }
          var dnstr: Notify.Bytes := cmd.notifySocket[|dnrelay.value.prefix|..] + " " + notify_tag.value;
          out := cmd.(notifyTag := Notify.QueryEscape(dnstr), notifySocket := OwnSocket(dnrelay.value));
        } else if !rtpp.isLocal {
          out := cmd.(notifyTag := "", notifySocket := "");
        }
      }
      if (cmd.kind == 'U' || cmd.kind == 'L') && rtpp.params.lan != "" {
        if !reparses {
          return Dropped;
        }
        out := out.(localIP := rtpp.params.lan, destIP := "");
      }
      o := Forwarded(rtpp, out, false);
    }

    /** Both search loops of up_command. */
    method FindTarget(cmd: Cmd) returns (r: Option<Member>)
      requires Partition(View())
      modifies known`call_id_map, known`call_id_map_old
      ensures r == Target(old(View()), cmd)
      ensures r.Some? ==> r.value in known
      ensures View() == if r.None? then old(View())
                        else WithCalls(old(View()), r.value, Touch(old(View()).members[r.value].calls, cmd.callId))
    {
      r := FindOwner(active, cmd.callId);
      var new_session := cmd.kind == 'U' && cmd.toTag == "";
      if r.None? && !new_session {
        r := FindOwner(pending, cmd.callId);
      }
    }

    /** The owner has been found and asked, from state s on. */
    method ServeOwned(ghost s: State<Member>, rtpp: Member, cmd: Cmd, reparses: bool) returns (o: Outcome<Member>)
      requires rtpp in known && rtpp in s.members
      requires View() == WithCalls(s, rtpp, Touch(s.members[rtpp].calls, cmd.callId))
      modifies rtpp`call_id_map, rtpp`call_id_map_old
      ensures (View(), o) == RouteOwned(s, rtpp, cmd, reparses)
    {
      ghost var touched := Touch(s.members[rtpp].calls, cmd.callId);
      assert rtpp.View() == View().members[rtpp];
      if cmd.kind == 'D' {
        WithCallsTwice(s, rtpp, touched, Unbind(touched, cmd.callId));
        UnbindIn(rtpp, cmd.callId);
        o := Forwarded(rtpp, cmd, !rtpp.online);
      } else {
        o := SendTo(rtpp, cmd, reparses);
        DeliverIgnoresCalls(s.members[rtpp], touched, rtpp, dnrelay, cmd, reparses);
      }
    }

    method OpenSession(cmd: Cmd, reparses: bool, draw: Draw) returns (o: Outcome<Member>)
      requires Partition(View())
      modifies known`call_id_map, known`call_id_map_old
      ensures var pick := Routing.PickProxy(old(View()), draw);
        (pick.Some? ==> pick.value in old(View()).members) &&
        (View(), o) == RouteNew(old(View()), pick, cmd, reparses)
    {
      var rtpp := PickProxy(draw);
      if rtpp.None? {
        return Answered(Word("E998"));
      }
      var m := rtpp.value;
      ghost var s := View();
      PickIsListed(s, draw);
      ghost var bound := Bind(s.members[m].calls, cmd.callId, cmd.kind);
      BindIn(m, cmd.callId, cmd.kind);
      assert m.View() == View().members[m];
      o := SendTo(m, cmd, reparses);
      DeliverIgnoresCalls(s.members[m], bound, m, dnrelay, cmd, reparses);
    }

    method AskAll(cmd: Cmd, reparses: bool) returns (o: Outcome<Member>)
      requires Partition(View())
      ensures o == RouteUnknown(View(), cmd, reparses)
    {
      var online := OnlineMembers();
      var parts := SendToAll(online, cmd, reparses, View().members);
      o := Spread(parts, |online|, false);
    }

    /** The session branch of up_command. */
    method UpSessionCommand(cmd: Cmd, reparses: bool, draw: Draw) returns (o: Outcome<Member>)
      requires Partition(View())
      modifies known`call_id_map, known`call_id_map_old
      ensures (View(), o) == RouteSession(old(View()), cmd, reparses, draw)
    {
      ghost var s := View();
      var rtpp := FindTarget(cmd);
      if rtpp.Some? {
        o := ServeOwned(s, rtpp.value, cmd, reparses);
      } else if cmd.kind == 'U' && cmd.toTag == "" {
        o := OpenSession(cmd, reparses, draw);
      } else {
        o := AskAll(cmd, reparses);
      }
    }

    /** up_command on a parsed command. */
    method UpCommand(cmd: Cmd, reparses: bool, draw: Draw) returns (o: Outcome<Member>)
      requires Partition(View())
      modifies known`call_id_map, known`call_id_map_old
      ensures (View(), o) == Route(old(View()), cmd, reparses, draw)
    {
      if |active| == 0 {
        return Answered(Word("E999"));
      }
      if cmd.kind in "ULDPSRCQ" {
        o := UpSessionCommand(cmd, reparses, draw);
      } else if cmd.kind == 'I' && cmd.opts == "b" {
        var online := OnlineMembers();
        var n := TotalSessions(online);
        o := Answered(Totals(n));
      } else if cmd.kind == 'G' {
        var online := OnlineMembers();
        var parts := SendStatsToAll(online, cmd);
        o := Spread(parts, |online|, true);
      } else {
        o := Forwarded(active[0], cmd, false);
      }
    }
  }
}
