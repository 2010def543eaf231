/**
  The whole dispatcher over sequences of administration commands and cluster
  events. A reload, and every other command, is a sequence of the events of
  `Runs`, so that every cluster is always in the state of some run, and the
  facts proved there about all runs hold whatever the operator does.

  Runs begin with the empty world; Startup says when the start of the dispatcher
  is a reload of it.
*/
module AdminRuns {
  import opened Common
  import opened Membership
  import opened Routing
  import opened Runs
  import opened Sweep
  import opened Reload
  import opened Cli

  /** The events a reload is made of. */
  predicate IsReloadEvent<M(!new)>(e: Event<M>) {
    e.Join? || e.Configured? || e.Removal? || e.Limited? || e.Relayed?
  }

  /** Such events lead from s to t. */
  ghost predicate Leads<M(!new)>(s: State<M>, t: State<M>)
    requires Partition(s)
  {
    exists es :: (forall e :: e in es ==> IsReloadEvent(e)) && RunFrom(s, es) == t
  }

  lemma LeadsNowhere<M(!new)>(s: State<M>)
    requires Partition(s)
    ensures Leads(s, s)
  {
    assert RunFrom(s, []) == s;
  }

  lemma LeadsByEvent<M(!new)>(s: State<M>, e: Event<M>)
    requires Partition(s) && IsReloadEvent(e)
    ensures Partition(Step(s, e)) && Leads(s, Step(s, e))
  {
    StepKeepsPartition(s, e);
    assert [e][1..] == [];
    assert RunFrom(Step(s, e), []) == Step(s, e);
    assert RunFrom(s, [e]) == Step(s, e);
  }

  lemma LeadsOn<M(!new)>(s: State<M>, t: State<M>, u: State<M>)
    requires Partition(s) && Partition(t) && Leads(s, t) && Leads(t, u)
    ensures Leads(s, u)
  {
    var a :| (forall e :: e in a ==> IsReloadEvent(e)) && RunFrom(s, a) == t;
    var b :| (forall e :: e in b ==> IsReloadEvent(e)) && RunFrom(t, b) == u;
    RunFromAppend(s, a, b);
    assert RunFrom(s, a + b) == u;
  }

  // ------------------------------------------------------ one cluster

  /** What the proxy loop leaves, also for a configuration that repeats a name. */
  ghost predicate Joined<M(!new)>(s: State<M>, t: State<M>, cs: seq<ProxyConf>, ns: seq<Newcomer<M>>)
    requires |cs| == |ns|
  {
    && Grown(s, t)
    && (forall k :: 0 <= k < |cs| ==> HasName(t, cs[k].name))
    && (forall x :: x in t.members && x !in s.members ==>
          exists k :: 0 <= k < |cs| && !HasName(s, cs[k].name) && ns[k].m == x)
  }

  lemma OneProxyLeads<M(!new)>(t: State<M>, c: ProxyConf, n: Newcomer<M>)
    requires Partition(t) && UniqueNames(t) && (!HasName(t, c.name) ==> n.m !in t.members)
    ensures var u := ApplyOne(t, c, n).0; Partition(u) && UniqueNames(u) && Leads(t, u)
  {
    ByNameIsHasName(t, c.name);
    ApplyOneEffect(t, c, n);
    var (u, m) := ApplyOne(t, c, n);
    AppliedKeepsNames(t, u, m, c, n);
    match ByName(t.active + t.pending, t.members, c.name)
    case Some(_) => LeadsByEvent(t, Configured(m, c.params, StatusFromString(c.status)));
    case None => LeadsByEvent(t, Join(n.m, NewRecord(c, n)));
  }

  lemma NamesStay<M(!new)>(t: State<M>, u: State<M>, name: string)
    requires Grown(t, u) && HasName(t, name)
    ensures HasName(u, name)
  {
    var x :| x in t.members && Listed(t, x) && t.members[x].name == name;
    assert x in u.members && Listed(u, x) && u.members[x].name == name;
  }

  lemma StillAbsent<M(!new)>(s: State<M>, t: State<M>, cs: seq<ProxyConf>, ns: seq<Newcomer<M>>, c: ProxyConf,
                      n: Newcomer<M>)
    requires |cs| == |ns| && Joined(s, t, cs, ns) && NewObjects(s, cs + [c], ns + [n])
    ensures !HasName(t, c.name) ==> n.m !in t.members && !HasName(s, c.name)
  {
    var cs', ns' := cs + [c], ns + [n];
    assert cs'[|cs|] == c && ns'[|cs|] == n;
    if HasName(s, c.name) {
      NamesStay(s, t, c.name);
    } else {
      forall k | 0 <= k < |cs| && !HasName(s, cs[k].name) ensures ns[k].m != n.m || HasName(t, c.name) {
        assert cs'[k] == cs[k] && ns'[k] == ns[k] && HasName(t, cs[k].name);
      }
    }
  }

  lemma JoinedNames<M(!new)>(t: State<M>, u: State<M>, cs: seq<ProxyConf>, m: M, c: ProxyConf, n: Newcomer<M>)
    requires (forall k :: 0 <= k < |cs| ==> HasName(t, cs[k].name)) && Applied(t, u, m, c, n)
    ensures forall k :: 0 <= k <= |cs| ==> HasName(u, (cs + [c])[k].name)
  {
    GrownNext(t, t, u, m, c, n);
    assert m in u.members && Listed(u, m) && u.members[m].name == c.name;
    forall k | 0 <= k < |cs| ensures HasName(u, cs[k].name) {
      NamesStay(t, u, cs[k].name);
    }
  }

  lemma JoinedNext<M(!new)>(s: State<M>, t: State<M>, u: State<M>, cs: seq<ProxyConf>, ns: seq<Newcomer<M>>,
                            m: M, c: ProxyConf, n: Newcomer<M>)
    requires |cs| == |ns| && Joined(s, t, cs, ns) && Applied(t, u, m, c, n)
    requires !HasName(t, c.name) ==> !HasName(s, c.name)
    ensures Joined(s, u, cs + [c], ns + [n])
  {
    var cs', ns' := cs + [c], ns + [n];
    GrownNext(s, t, u, m, c, n);
    JoinedNames(t, u, cs, m, c, n);
    forall x | x in u.members && x !in s.members
      ensures exists k :: 0 <= k < |cs'| && !HasName(s, cs'[k].name) && ns'[k].m == x
    {
      if x in t.members {
        var k :| 0 <= k < |cs| && !HasName(s, cs[k].name) && ns[k].m == x;
        assert !HasName(s, cs'[k].name) && ns'[k].m == x;
      } else {
        assert !HasName(s, cs'[|cs|].name) && ns'[|cs|].m == x;
      }
    }
  }

  /** t comes from s by the lines cs of the proxy loop. */
  ghost predicate Looped<M(!new)>(s: State<M>, t: State<M>, cs: seq<ProxyConf>, ns: seq<Newcomer<M>>)
    requires |cs| == |ns| && Partition(s)
  {
    Partition(t) && UniqueNames(t) && Leads(s, t) && Joined(s, t, cs, ns)
  }

  lemma LoopedNext<M(!new)>(s: State<M>, cs: seq<ProxyConf>, ns: seq<Newcomer<M>>, c: ProxyConf, n: Newcomer<M>)
    requires |cs| == |ns| && Partition(s) && Looped(s, ApplyAll(s, cs, ns).0, cs, ns)
      && NewObjects(s, cs + [c], ns + [n])
    ensures Looped(s, ApplyAll(s, cs + [c], ns + [n]).0, cs + [c], ns + [n])
  {
    var t := ApplyAll(s, cs, ns).0;
    ApplyAllLast(s, cs, ns, c, n);
    StillAbsent(s, t, cs, ns, c, n);
    ApplyOneEffect(t, c, n);
    var (u, m) := ApplyOne(t, c, n);
    OneProxyLeads(t, c, n);
    LeadsOn(s, t, u);
    JoinedNext(s, t, u, cs, ns, m, c, n);
  }

  lemma LoopedNowhere<M(!new)>(s: State<M>)
    requires Partition(s) && UniqueNames(s)
    ensures Looped(s, s, [], [])
  {
    LeadsNowhere(s);
  }

  /** The proxy loop is a sequence of joins and reconfigurations, and keeps names unique, also for repeated names. */
  lemma {:induction false} ProxyLoopLeads<M(!new)>(s: State<M>, cs: seq<ProxyConf>, ns: seq<Newcomer<M>>)
    requires Partition(s) && UniqueNames(s) && |cs| == |ns| && NewObjects(s, cs, ns)
    ensures Looped(s, ApplyAll(s, cs, ns).0, cs, ns)
    decreases |cs|
  {
    if cs == [] {
      assert ns == [] && ApplyAll(s, cs, ns).0 == s;
      LoopedNowhere(s);
    } else {
      var last := |cs| - 1;
      var before, c := cs[..last], cs[last];
      var others, n := ns[..last], ns[last];
      assert cs == before + [c];
      assert ns == others + [n];
      NewObjectsPrefix(s, cs, ns, last);
      ProxyLoopLeads(s, before, others);
      LoopedNext(s, before, others, c, n);
    }
  }

  /** The last loop is a sequence of removals. */
  lemma {:induction false} SweepLeads<M(!new)>(shared: bool, s: State<M>, b: seq<M>, i: nat, keep: set<M>)
    requires Partition(s)
    ensures Leads(s, SweepFrom(shared, s, b, i, keep).0)
    decreases |b| - i
  {
    if i >= |b| {
      LeadsNowhere(s);
    } else if b[i] in keep || b[i] !in s.members {
      SweepLeads(shared, s, b, i + 1, keep);
    } else {
      var t := BringDown(s, b[i]);
      LeadsByEvent(s, Removal(b[i]));
      ReadLength(shared, t.active, b);
      SweepLeads(shared, t, Reread(shared, t.active, b), i + 1, keep);
      LeadsOn(s, t, SweepFrom(shared, s, b, i, keep).0);
    }
  }

  lemma SweepKeepsNames<M(!new)>(shared: bool, s: State<M>, keep: set<M>)
    requires Partition(s) && UniqueNames(s)
    ensures var u := SweepAll(shared, s, keep).0; Partition(u) && UniqueNames(u)
  {
    SweepEffect(shared, s, s.active + s.pending, 0, keep);
  }

  /** The reload of one cluster is a sequence of joins, reconfigurations and removals, and keeps names unique. */
  lemma ReloadLeads<M(!new)>(room: nat, s: State<M>, cs: seq<ProxyConf>, ns: seq<Newcomer<M>>)
    requires Partition(s) && UniqueNames(s) && |cs| == |ns| && NewObjects(s, cs, ns)
    ensures var u := ReloadMembers(room, s, cs, ns).0; Partition(u) && UniqueNames(u) && Leads(s, u)
  {
    ProxyLoopLeads(s, cs, ns);
    var (t, ms) := ApplyAll(s, cs, ns);
    var shared := Shares(t, room);
    SweepLeads(shared, t, t.active + t.pending, 0, Kept(ms));
    SweepKeepsNames(shared, t, Kept(ms));
    LeadsOn(s, t, SweepAll(shared, t, Kept(ms)).0);
  }

  // ------------------------------------------------------- good clusters

  /** The state of some run of events, with unique names. */
  ghost predicate Good<M(!new)>(s: State<M>) {
    UniqueNames(s) && exists es :: Run(es) == s
  }

  lemma GoodIsPartitioned<M(!new)>(s: State<M>)
    requires Good(s)
    ensures Partition(s)
  {
    var es :| Run(es) == s;
  }

  lemma GoodFresh<M(!new)>()
    ensures Good<M>(Fresh())
  {
    assert Run<M>([]) == Fresh();
  }

  lemma GoodStep<M(!new)>(s: State<M>, e: Event<M>)
    requires Good(s) && Partition(s) && UniqueNames(Step(s, e))
    ensures Good(Step(s, e))
  {
    var es :| Run(es) == s;
    var next := es + [e];
    assert next[..|es|] == es;
    assert Run(next) == Step(s, e);
  }

  lemma GoodLeads<M(!new)>(s: State<M>, t: State<M>)
    requires Good(s) && Partition(s) && Leads(s, t) && UniqueNames(t)
    ensures Good(t)
  {
    var es :| Run(es) == s;
    var more :| (forall e :: e in more ==> IsReloadEvent(e)) && RunFrom(s, more) == t;
    RunAppend(es, more);
    assert Run(es + more) == t;
  }

  /** The limit and the relay of a cluster may be set at any time. */
  lemma GoodSettings<M(!new)>(s: State<M>, soft: bool, relay: Option<Relay>)
    requires Good(s)
    ensures Good(s.(soft := soft, relay := relay)) && Partition(s.(soft := soft, relay := relay))
  {
    GoodIsPartitioned(s);
    var t := Step(s, Limited(soft));
    GoodStep(s, Limited(soft));
    GoodIsPartitioned(t);
    GoodStep(t, Relayed(relay));
    assert Step(t, Relayed(relay)) == s.(soft := soft, relay := relay);
  }

  // ------------------------------------------------------------- worlds

  /** Every cluster, listed or not, is in the state of some run. */
  ghost predicate Sane<M(!new)>(w: World<M>) {
    && Tabled(w)
    && (forall id :: id in w.table ==> Good(w.table[id].state))
  }

  /** The objects made for one configured cluster are new ones. */
  ghost predicate NewFor<M(!new)>(w: World<M>, c: ClusterConf, e: Start<M>) {
    && |e.newcomers| == |c.proxies|
    && NewObjects(Base(w, c), c.proxies, e.newcomers)
    && (!Known(w, c.name) ==> e.id !in w.table)
  }

  /** The same for each cluster, at the moment when it is loaded. */
  ghost predicate NewForAll<M(!new)>(w: World<M>, cs: seq<ClusterConf>, es: seq<Start<M>>)
    requires Sized(cs, es)
    decreases |cs|
  {
    cs == [] ||
    var last := |cs| - 1;
    && NewForAll(w, cs[..last], es[..last])
    && var (v, ids, ok) := LoadAll(w, cs[..last], es[..last]);
       ok ==> NewFor(v, cs[last], es[last])
  }

  lemma GoodBase<M(!new)>(w: World<M>, c: ClusterConf)
    requires Sane(w)
    ensures Good(Base(w, c)) && Partition(Base(w, c)) && UniqueNames(Base(w, c))
  {
    ClusterByNameFinds(w.clusters, w.table, c.name);
    GoodFresh<M>();
    match ClusterByName(w.clusters, w.table, c.name)
    case Some(id) => GoodSettings(w.table[id].state, c.soft, c.relay);
    case None => GoodSettings(Fresh<M>(), c.soft, c.relay);
  }

  lemma GoodReload<M(!new)>(room: nat, s: State<M>, cs: seq<ProxyConf>, ns: seq<Newcomer<M>>)
    requires Good(s) && |cs| == |ns| && NewObjects(s, cs, ns)
    ensures Good(ReloadMembers(room, s, cs, ns).0)
  {
    GoodIsPartitioned(s);
    ReloadLeads(room, s, cs, ns);
    GoodLeads(s, ReloadMembers(room, s, cs, ns).0);
  }

  lemma GoodProxyLoop<M(!new)>(s: State<M>, cs: seq<ProxyConf>, ns: seq<Newcomer<M>>, n: nat)
    requires Good(s) && |cs| == |ns| && NewObjects(s, cs, ns) && n <= |cs|
    ensures Good(ApplyAll(s, cs[..n], ns[..n]).0)
  {
    GoodIsPartitioned(s);
    NewObjectsPrefix(s, cs, ns, n);
    ProxyLoopLeads(s, cs[..n], ns[..n]);
    GoodLeads(s, ApplyAll(s, cs[..n], ns[..n]).0);
  }

  lemma SanePut<M(!new)>(w: World<M>, id: nat, r: Named<M>)
    requires Sane(w) && Good(r.state)
    ensures Sane(w.(table := w.table[id := r]))
  {
  }

  /** Loading one cluster, in full or up to an unsupported protocol, leaves all clusters good. */
  lemma LoadClusterKeepsSane<M(!new)>(w: World<M>, c: ClusterConf, e: Start<M>)
    requires Sane(w) && NewFor(w, c, e)
    ensures Sane(LoadCluster(w, c, e).0)
  {
    GoodBase(w, c);
    var s, n, id := Base(w, c), SupportedPrefix(c.proxies), IdOf(w, c, e);
    if n == |c.proxies| {
      GoodReload(e.room, s, c.proxies, e.newcomers);
      SanePut(w, id, Named(c.name, ReloadMembers(e.room, s, c.proxies, e.newcomers).0));
    } else {
      GoodProxyLoop(s, c.proxies, e.newcomers, n);
      SanePut(w, id, Named(c.name, ApplyAll(s, c.proxies[..n], e.newcomers[..n]).0));
    }
  }

  lemma {:induction false} LoadAllKeepsSane<M(!new)>(w: World<M>, cs: seq<ClusterConf>, es: seq<Start<M>>)
    requires Sane(w) && Sized(cs, es) && NewForAll(w, cs, es)
    ensures Sane(LoadAll(w, cs, es).0)
    decreases |cs|
  {
    if cs != [] {
      var last := |cs| - 1;
      assert cs[..last] + [cs[last]] == cs && es[..last] + [es[last]] == es;
      LoadAllKeepsSane(w, cs[..last], es[..last]);
      LoadAllLast(w, cs[..last], es[..last], cs[last], es[last]);
      var (v, ids, ok) := LoadAll(w, cs[..last], es[..last]);
      if ok {
        LoadClusterKeepsSane(v, cs[last], es[last]);
      }
    }
  }

  // ------------------------------------------------------ cluster names

  /** The numbers collected so far: known clusters under their own, new ones under new and different ones. */
  ghost predicate Collects<M(!new)>(w: World<M>, v: World<M>, ids: seq<nat>, cs: seq<ClusterConf>) {
    && Tabled(w) && |ids| == |cs|
    && SameNames(w, v)
    && (forall k :: 0 <= k < |ids| ==> ids[k] in v.table && v.table[ids[k]].name == cs[k].name)
    && (forall k :: 0 <= k < |ids| && Known(w, cs[k].name) ==>
          Some(ids[k]) == ClusterByName(w.clusters, w.table, cs[k].name))
    && (forall i, j :: 0 <= i < j < |ids| && !Known(w, cs[i].name) && !Known(w, cs[j].name) ==> ids[i] != ids[j])
  }

  lemma CollectsNext<M(!new)>(w: World<M>, v: World<M>, ids: seq<nat>, cs: seq<ClusterConf>, c: ClusterConf,
                       e: Start<M>, r: Named<M>)
    requires Collects(w, v, ids, cs) && r.name == c.name && (!Known(v, c.name) ==> e.id !in v.table)
    ensures Collects(w, v.(table := v.table[IdOf(v, c, e) := r]), ids + [IdOf(v, c, e)], cs + [c])
  {
    SearchUnchanged(w.clusters, w.table, v.table, c.name);
    ClusterByNameFinds(v.clusters, v.table, c.name);
  }

  lemma LoadOneCollects<M(!new)>(w: World<M>, v: World<M>, ids: seq<nat>, cs: seq<ClusterConf>, c: ClusterConf,
                          e: Start<M>)
    requires Collects(w, v, ids, cs) && NewFor(v, c, e)
    ensures var (u, good) := LoadCluster(v, c, e);
      SameNames(w, u) && (good ==> Collects(w, u, ids + [IdOf(v, c, e)], cs + [c]))
  {
    LoadClusterShape(v, c, e);
    CollectsNext(w, v, ids, cs, c, e, Entry(v, c, e));
  }

  /** What holds after the loop over the configuration: the search by name still sees the old names. */
  ghost predicate Loads<M(!new)>(w: World<M>, cs: seq<ClusterConf>, es: seq<Start<M>>)
    requires Sized(cs, es)
  {
    var (v, ids, ok) := LoadAll(w, cs, es);
    SameNames(w, v) && (ok ==> Collects(w, v, ids, cs))
  }

  lemma LoadsNext<M(!new)>(w: World<M>, cs: seq<ClusterConf>, es: seq<Start<M>>, c: ClusterConf, e: Start<M>)
    requires Sized(cs, es) && |e.newcomers| == |c.proxies| && Loads(w, cs, es)
    requires var (v, ids, ok) := LoadAll(w, cs, es); ok ==> NewFor(v, c, e)
    ensures Sized(cs + [c], es + [e]) && Loads(w, cs + [c], es + [e])
  {
    LoadAllLast(w, cs, es, c, e);
    var (v, ids, ok) := LoadAll(w, cs, es);
    if ok {
      LoadOneCollects(w, v, ids, cs, c, e);
    }
  }

  lemma {:induction false} LoadAllCollects<M(!new)>(w: World<M>, cs: seq<ClusterConf>, es: seq<Start<M>>)
    requires Tabled(w) && Sized(cs, es) && NewForAll(w, cs, es)
    ensures Loads(w, cs, es)
    decreases |cs|
  {
    if cs != [] {
      var last := |cs| - 1;
      assert cs[..last] + [cs[last]] == cs && es[..last] + [es[last]] == es;
      LoadAllCollects(w, cs[..last], es[..last]);
      LoadsNext(w, cs[..last], es[..last], cs[last], es[last]);
    }
  }

  /** No name that is new to the dispatcher is configured twice. */
  ghost predicate NoNewNameTwice<M(!new)>(w: World<M>, cs: seq<ClusterConf>) {
    forall i, j :: 0 <= i < j < |cs| && cs[i].name == cs[j].name ==> Known(w, cs[i].name)
  }

  lemma SameNumberExactly<M(!new)>(w: World<M>, v: World<M>, ids: seq<nat>, cs: seq<ClusterConf>, i: nat, j: nat)
    requires Collects(w, v, ids, cs) && i < j < |cs| && cs[i].name == cs[j].name
    ensures ids[i] == ids[j] <==> Known(w, cs[i].name)
  {
  }

  /** The names of the clusters listed after a reload that runs through. */
  lemma ListedNames<M(!new)>(w: World<M>, v: World<M>, ids: seq<nat>, cs: seq<ClusterConf>, dropped: set<nat>)
    requires Collects(w, v, ids, cs)
    ensures var u := World(ids, CloseDropped(v.table, dropped));
      Tabled(u) && |ids| == |cs| && forall k :: 0 <= k < |ids| ==> u.table[ids[k]].name == cs[k].name
  {
  }

  lemma NamesOnceExactly<M(!new)>(w: World<M>, v: World<M>, ids: seq<nat>, cs: seq<ClusterConf>, u: World<M>)
    requires Collects(w, v, ids, cs) && u.clusters == ids
    requires Tabled(u) && forall k :: 0 <= k < |ids| ==> u.table[ids[k]].name == cs[k].name
    ensures OneClusterPerName(u) <==> NoNewNameTwice(w, cs)
  {
    forall i, j | 0 <= i < j < |cs| && cs[i].name == cs[j].name ensures ids[i] == ids[j] <==> Known(w, cs[i].name) {
      SameNumberExactly(w, v, ids, cs, i, j);
    }
  }

  lemma NamesUntouched<M(!new)>(w: World<M>, v: World<M>)
    requires Tabled(w) && OneClusterPerName(w) && SameNames(w, v)
    ensures Tabled(v) && OneClusterPerName(v)
  {
  }

  /**
    After a reload each name stands for one cluster, exactly when no new name is configured twice; a reload that
    stops half way changes no name.
  */
  lemma ReloadNamesExactly<M(!new)>(w: World<M>, cs: seq<ClusterConf>, es: seq<Start<M>>)
    requires Tabled(w) && OneClusterPerName(w) && Sized(cs, es) && NewForAll(w, cs, es)
    ensures var (u, ok) := ReloadAll(w, cs, es);
      Tabled(u) && (OneClusterPerName(u) <==> !ok || NoNewNameTwice(w, cs))
  {
    LoadAllCollects(w, cs, es);
    var (v, ids, ok) := LoadAll(w, cs, es);
    if ok {
      ListedNames(w, v, ids, cs, set id | id in w.clusters && id !in ids);
      NamesOnceExactly(w, v, ids, cs, ReloadAll(w, cs, es).0);
    } else {
      NamesUntouched(w, v);
    }
  }

  lemma GoodClose<M(!new)>(s: State<M>)
    requires Good(s)
    ensures Good(Close(s))
  {
    GoodIsPartitioned(s);
    GoodStep(s, Closed);
  }

  lemma CloseKeepsGood<M(!new)>(table: map<nat, Named<M>>, dropped: set<nat>)
    requires forall id :: id in table ==> Good(table[id].state)
    ensures forall id :: id in table ==> Good(CloseDropped(table, dropped)[id].state)
  {
    forall id | id in table ensures Good(CloseDropped(table, dropped)[id].state) {
      GoodClose(table[id].state);
    }
  }

  lemma ClosedWorldIsSane<M(!new)>(table: map<nat, Named<M>>, ids: seq<nat>, dropped: set<nat>)
    requires forall id :: id in table ==> Good(table[id].state)
    requires forall k :: 0 <= k < |ids| ==> ids[k] in table
    ensures Sane(World(ids, CloseDropped(table, dropped)))
  {
    CloseKeepsGood(table, dropped);
  }

  lemma ReloadKeepsSane<M(!new)>(w: World<M>, cs: seq<ClusterConf>, es: seq<Start<M>>)
    requires Sane(w) && Sized(cs, es) && NewForAll(w, cs, es)
    ensures Sane(ReloadAll(w, cs, es).0)
  {
    LoadAllKeepsSane(w, cs, es);
    LoadAllCollects(w, cs, es);
    var (v, ids, ok) := LoadAll(w, cs, es);
    if ok {
      assert Collects(w, v, ids, cs);
      ClosedWorldIsSane(v.table, ids, set id | id in w.clusters && id !in ids);
    }
  }

  // ---------------------------------------------------------------- runs

  datatype Action<M> =
    | Edit(cluster: string, cmd: Modify<M>)                    // CLI modify
    | Load(cs: seq<ClusterConf>, es: seq<Start<M>>)            // CLI reload, and the start
    | Within(id: nat, e: Event<M>)                             // an event inside one cluster

  ghost function EditStep<M(!new)>(w: World<M>, cluster: string, cmd: Modify<M>): World<M> {
    match ClusterByName(w.clusters, w.table, cluster)
    case None => w
    case Some(id) =>
      if id !in w.table || (cmd.Add? && cmd.n.m in w.table[id].state.members) then w
      else w.(table := w.table[id := w.table[id].(state := Apply(w.table[id].state, cmd).0)])
  }

  /**
    Objects made by a command are new ones, and members join by commands only; other steps do not occur and
    change nothing.
  */
  ghost function WorldStep<M(!new)>(w: World<M>, a: Action<M>): World<M>
    requires Sane(w)
  {
    match a
    case Edit(cluster, cmd) => EditStep(w, cluster, cmd)
    case Load(cs, es) => if Sized(cs, es) && NewForAll(w, cs, es) then ReloadAll(w, cs, es).0 else w
    case Within(id, e) =>
      if id !in w.table || e.Join? then w
      else
        GoodIsPartitioned(w.table[id].state);
        w.(table := w.table[id := w.table[id].(state := Step(w.table[id].state, e))])
  }

  lemma SteadyKeepsNames<M(!new)>(s: State<M>, t: State<M>)
    requires UniqueNames(s) && Steady(s, t)
    ensures UniqueNames(t)
  {
  }

  lemma SameButCallsKeepsNames<M(!new)>(s: State<M>, t: State<M>)
    requires UniqueNames(s) && SameButCalls(s, t)
    ensures UniqueNames(t)
  {
  }

  lemma StepKeepsNames<M(!new)>(s: State<M>, e: Event<M>)
    requires Partition(s) && UniqueNames(s) && !e.Join?
    ensures UniqueNames(Step(s, e))
  {
    if IsMove(e) {
      MoveIsSteady(s, e);
      SteadyKeepsNames(s, Step(s, e));
    } else if e.Command? {
      RouteChangesOnlyCalls(s, e.cmd, e.draw);
      SameButCallsKeepsNames(s, Step(s, e));
    }
  }

  lemma AddKeepsGood<M(!new)>(s: State<M>, c: ProxyConf, n: Newcomer<M>)
    requires Good(s) && n.m !in s.members
    ensures Good(Apply(s, Add(c, n)).0)
  {
    GoodIsPartitioned(s);
    ModifyKeepsNames(s, Add(c, n));
    if Apply(s, Add(c, n)).1 {
      GoodStep(s, Join(n.m, NewRecord(c, n)));
    }
  }

  lemma RemovalKeepsGood<M(!new)>(s: State<M>, m: M)
    requires Good(s) && m in s.members
    ensures Good(BringDown(s, m))
  {
    GoodIsPartitioned(s);
    RemovalKeepsNames(s, m);
    GoodStep(s, Removal(m));
  }

  lemma StatusKeepsGood<M(!new)>(s: State<M>, m: M, st: Status)
    requires Good(s) && m in s.members
    ensures Good(SetStatus(s, m, st))
  {
    GoodIsPartitioned(s);
    StatusKeepsNames(s, m, st);
    GoodStep(s, Statused(m, st));
  }

  lemma NamedKeepsGood<M(!new)>(s: State<M>, cmd: Modify<M>)
    requires Good(s) && !cmd.Add?
    ensures Good(Apply(s, cmd).0)
  {
    var found := ByName(s.active + s.pending, s.members, cmd.name);
    if found.Some? && found.value in s.members {
      RemovalKeepsGood(s, found.value);
      StatusKeepsGood(s, found.value, SUSPENDED);
      StatusKeepsGood(s, found.value, ACTIVE);
    }
  }

  /** A successful modify command is an event of the cluster. */
  lemma ModifyKeepsGood<M(!new)>(s: State<M>, cmd: Modify<M>)
    requires Good(s) && (cmd.Add? ==> cmd.n.m !in s.members)
    ensures Good(Apply(s, cmd).0)
  {
    match cmd
    case Add(c, n) => AddKeepsGood(s, c, n);
    case Remove(_) => NamedKeepsGood(s, cmd);
    case Pause(_) => NamedKeepsGood(s, cmd);
    case Resume(_) => NamedKeepsGood(s, cmd);
  }

  lemma StatePut<M(!new)>(w: World<M>, id: nat, s: State<M>)
    requires Sane(w) && Good(s) && id in w.table
    ensures var u := w.(table := w.table[id := w.table[id].(state := s)]); Sane(u) && SameNames(w, u)
  {
  }

  lemma EditKeepsSane<M(!new)>(w: World<M>, cluster: string, cmd: Modify<M>)
    requires Sane(w)
    ensures Sane(EditStep(w, cluster, cmd)) && SameNames(w, EditStep(w, cluster, cmd))
  {
    var found := ClusterByName(w.clusters, w.table, cluster);
    if found.Some? && found.value in w.table {
      var s := w.table[found.value].state;
      StatePut(w, found.value, s);
      if !cmd.Add? || cmd.n.m !in s.members {
        ModifyKeepsGood(s, cmd);
        StatePut(w, found.value, Apply(s, cmd).0);
      }
    }
  }

  lemma WithinKeepsSane<M(!new)>(w: World<M>, id: nat, e: Event<M>)
    requires Sane(w)
    ensures Sane(WorldStep(w, Within(id, e))) && SameNames(w, WorldStep(w, Within(id, e)))
  {
    if id in w.table && !e.Join? {
      var s := w.table[id].state;
      GoodIsPartitioned(s);
      StepKeepsNames(s, e);
      GoodStep(s, e);
      StatePut(w, id, Step(s, e));
    }
  }

  lemma WorldStepKeepsSane<M(!new)>(w: World<M>, a: Action<M>)
    requires Sane(w)
    ensures Sane(WorldStep(w, a))
  {
    match a
    case Edit(cluster, cmd) => EditKeepsSane(w, cluster, cmd);
    case Load(cs, es) => if Sized(cs, es) && NewForAll(w, cs, es) { ReloadKeepsSane(w, cs, es); }
    case Within(id, e) => WithinKeepsSane(w, id, e);
  }

  function EmptyWorld<M(!new)>(): World<M> {
    World([], map[])
  }

  /**
    The dispatcher after a sequence of commands and events. Every cluster in it is in the state of some run of
    its own.
  */
  ghost function WorldRun<M(!new)>(acts: seq<Action<M>>): (w: World<M>)
    ensures Sane(w)
  {
    if acts == [] then EmptyWorld()
    else
      var before := WorldRun(acts[..|acts| - 1]);
      WorldStepKeepsSane(before, acts[|acts| - 1]);
      WorldStep(before, acts[|acts| - 1])
  }

  ghost predicate NewNamesOnce<M(!new)>(acts: seq<Action<M>>) {
    forall i :: 0 <= i < |acts| && acts[i].Load? ==> NoNewNameTwice(WorldRun(acts[..i]), acts[i].cs)
  }

  lemma WorldStepKeepsClusterNames<M(!new)>(w: World<M>, a: Action<M>)
    requires Sane(w) && OneClusterPerName(w) && (a.Load? ==> NoNewNameTwice(w, a.cs))
    ensures Tabled(WorldStep(w, a)) && OneClusterPerName(WorldStep(w, a))
  {
    match a
    case Edit(cluster, cmd) => EditKeepsSane(w, cluster, cmd);
    case Load(cs, es) => if Sized(cs, es) && NewForAll(w, cs, es) { ReloadNamesExactly(w, cs, es); }
    case Within(id, e) => WithinKeepsSane(w, id, e);
  }

  lemma NewNamesOnceBefore<M(!new)>(acts: seq<Action<M>>)
    requires NewNamesOnce(acts) && acts != []
    ensures NewNamesOnce(acts[..|acts| - 1])
    ensures acts[|acts| - 1].Load? ==> NoNewNameTwice(WorldRun(acts[..|acts| - 1]), acts[|acts| - 1].cs)
  {
    var before := acts[..|acts| - 1];
    forall i | 0 <= i < |before| && before[i].Load? ensures NoNewNameTwice(WorldRun(before[..i]), before[i].cs) {
      assert before[..i] == acts[..i];
    }
  }

  lemma {:induction false} OneClusterPerNameAlways<M(!new)>(acts: seq<Action<M>>)
    requires NewNamesOnce(acts)
    ensures OneClusterPerName(WorldRun(acts))
  {
    if acts != [] {
      NewNamesOnceBefore(acts);
      OneClusterPerNameAlways(acts[..|acts| - 1]);
      WorldStepKeepsClusterNames(WorldRun(acts[..|acts| - 1]), acts[|acts| - 1]);
    }
  }

  /** Over every run in which no reload configures a new name twice, the dispatcher is fit for the next reload. */
  lemma FitForReload<M(!new)>(acts: seq<Action<M>>)
    requires NewNamesOnce(acts)
    ensures GoodWorld(WorldRun(acts))
  {
    OneClusterPerNameAlways(acts);
    GoodWorldIfSane(WorldRun(acts));
  }

  lemma GoodWorldIfSane<M(!new)>(w: World<M>)
    requires Sane(w) && OneClusterPerName(w)
    ensures GoodWorld(w)
  {
    forall id | id in w.table ensures Partition(w.table[id].state) {
      GoodIsPartitioned(w.table[id].state);
    }
  }

  /**
    After any run, also one with earlier reloads, complete or not, a reload that nothing stops reconciles every
    cluster.
  */
  lemma EveryReloadReconciles<M(!new)>(acts: seq<Action<M>>, cs: seq<ClusterConf>, es: seq<Start<M>>)
    requires NewNamesOnce(acts)
    requires var w := WorldRun(acts);
      GoodConf(w, cs, es) && forall k :: 0 <= k < |cs| ==> Carries(w, cs[k], es[k]) && Loadable(w, cs[k], es[k])
    ensures var w := WorldRun(acts);
      var (u, ok) := ReloadAll(w, cs, es);
      && ok && |u.clusters| == |cs|
      && (forall k :: 0 <= k < |cs| ==> ClusterReconciled(w, u, u.clusters[k], cs[k], es[k]))
      && (forall id :: id in w.clusters && id !in u.clusters ==>
            id in w.table && id in u.table && u.table[id].state == Close(w.table[id].state))
  {
    FitForReload(acts);
    ReloadAllReconciles(WorldRun(acts), cs, es);
  }

  /** After any such run, what a reload leaves that is stopped by cluster k. */
  lemma EveryStoppedReload<M(!new)>(acts: seq<Action<M>>, cs: seq<ClusterConf>, es: seq<Start<M>>, k: nat)
    requires NewNamesOnce(acts)
    requires var w := WorldRun(acts); GoodConf(w, cs, es) && FirstBlocked(w, cs, es, k)
    ensures StoppedAt(WorldRun(acts), cs, es, k)
  {
    FitForReload(acts);
    StoppedReloadExactly(WorldRun(acts), cs, es, k);
  }

  /** The numbers of new clusters are new whenever their objects are. */
  lemma {:induction false} NumbersAreNew<M(!new)>(w: World<M>, cs: seq<ClusterConf>, es: seq<Start<M>>)
    requires Tabled(w) && Sized(cs, es) && NewForAll(w, cs, es)
    ensures NumbersNew(w, cs, es)
    decreases |cs|
  {
    if cs != [] {
      var last := |cs| - 1;
      NumbersAreNew(w, cs[..last], es[..last]);
      LoadAllCollects(w, cs[..last], es[..last]);
      var (v, ids, ok) := LoadAll(w, cs[..last], es[..last]);
      SearchUnchanged(w.clusters, w.table, v.table, cs[last].name);
    }
  }

  /** The same condition decides for configurations that repeat a cluster name. */
  lemma AnyReloadRunsThroughExactly<M(!new)>(w: World<M>, cs: seq<ClusterConf>, es: seq<Start<M>>)
    requires Tabled(w) && Sized(cs, es) && NewForAll(w, cs, es)
    ensures ReloadAll(w, cs, es).1 <==> forall k :: 0 <= k < |cs| ==> Carries(w, cs[k], es[k])
  {
    NumbersAreNew(w, cs, es);
    ReloadRunsThroughExactly(w, cs, es);
  }

  // ------------------------------------------------- two clusters of one name

  /** A new cluster without proxies. */
  function Bare<M>(id: nat): Start<M> {
    Start(id, true, [], 1000)
  }

  lemma BareIsLoaded<M(!new)>(w: World<M>, c: ClusterConf, id: nat)
    requires w.clusters == [] && c.proxies == [] && id !in w.table
    ensures NewFor(w, c, Bare(id))
    ensures var (u, ok) := LoadCluster(w, c, Bare(id));
      ok && u.clusters == [] && id in u.table && u.table.Keys == w.table.Keys + {id}
  {
  }

  lemma OneUnnamedCluster<M(!new)>(w: World<M>, cs: seq<ClusterConf>, es: seq<Start<M>>, c: ClusterConf, id: nat)
    requires Sized(cs, es) && NewForAll(w, cs, es) && c.proxies == []
    requires var (v, ids, ok) := LoadAll(w, cs, es); ok && v.clusters == [] && id !in v.table
    ensures Sized(cs + [c], es + [Bare(id)]) && NewForAll(w, cs + [c], es + [Bare(id)])
    ensures var (v, ids, ok) := LoadAll(w, cs + [c], es + [Bare(id)]);
      ok && v.clusters == [] && v.table.Keys == LoadAll(w, cs, es).0.table.Keys + {id}
  {
    var cs', es' := cs + [c], es + [Bare(id)];
    assert cs'[..|cs|] == cs && es'[..|es|] == es;
    BareIsLoaded(LoadAll(w, cs, es).0, c, id);
    LoadAllLast(w, cs, es, c, Bare(id));
  }

  /** Such a repetition does occur: two unnamed clusters, which the reader lets pass, are both taken. */
  lemma TwoUnnamedClusters<M(!new)>(c: ClusterConf)
    requires c.name == "" && c.proxies == []
    ensures var w: World<M>, cs, es := EmptyWorld(), [c, c], [Bare(0), Bare(1)];
      && Sized(cs, es) && NewForAll(w, cs, es) && ReloadAll(w, cs, es).1
      && var u := ReloadAll(w, cs, es).0; Tabled(u) && !OneClusterPerName(u)
  {
    var w: World<M> := EmptyWorld();
    OneUnnamedCluster(w, [], [], c, 0);
    OneUnnamedCluster(w, [c], [Bare(0)], c, 1);
    assert [] + [c] == [c] && [] + [Bare<M>(0)] == [Bare(0)];
    assert [c] + [c] == [c, c] && [Bare<M>(0)] + [Bare(1)] == [Bare(0), Bare(1)];
    ReloadNamesExactly(w, [c, c], [Bare(0), Bare(1)]);
    assert !Known(w, [c, c][0].name);
  }

  /** Whatever the operator does, every cluster keeps all facts that hold after every run of events. */
  lemma EveryClusterIsARun<M(!new)>(acts: seq<Action<M>>, id: nat)
    requires id in WorldRun(acts).table
    ensures exists es :: Run(es) == WorldRun(acts).table[id].state
  {
    assert Good(WorldRun(acts).table[id].state);
  }
}
