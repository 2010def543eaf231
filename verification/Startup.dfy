/**
  The start of the dispatcher (main.go). Clusters and proxies are made without
  looking for their names, so that a repeated name is taken twice; a reload
  would take it once. The reader lets empty names repeat.
*/
module Startup {
  import opened Membership
  import opened Sweep
  import opened Reload
  import opened Cli
  import opened AdminRuns
  import Runs

  /** The members of one cluster at the start: each line of the configuration adds one. */
  function StartMembers<M>(s: State<M>, cs: seq<ProxyConf>, ns: seq<Newcomer<M>>): State<M>
    requires |cs| == |ns|
    decreases |cs|
  {
    if cs == [] then s
    else
      var last := |cs| - 1;
      AddMember(StartMembers(s, cs[..last], ns[..last]), ns[last].m, NewRecord(cs[last], ns[last]))
  }

  ghost predicate DistinctObjects<M>(ns: seq<Newcomer<M>>) {
    forall i, j :: 0 <= i < j < |ns| ==> ns[i].m != ns[j].m
  }

  /** Exactly the configured members are there, each as configured and in one of the lists. */
  ghost predicate Started<M>(t: State<M>, cs: seq<ProxyConf>, ns: seq<Newcomer<M>>) {
    && |cs| == |ns| && Partition(t)
    && (forall k :: 0 <= k < |ns| ==>
          ns[k].m in t.members && t.members[ns[k].m] == NewRecord(cs[k], ns[k]) && Listed(t, ns[k].m))
    && (forall m :: m in t.members ==> exists k :: 0 <= k < |ns| && ns[k].m == m)
  }

  lemma StartedNext<M>(t: State<M>, cs: seq<ProxyConf>, ns: seq<Newcomer<M>>, c: ProxyConf, n: Newcomer<M>)
    requires Started(t, cs, ns) && n.m !in t.members
    ensures Started(AddMember(t, n.m, NewRecord(c, n)), cs + [c], ns + [n])
  {
    var u, cs', ns' := AddMember(t, n.m, NewRecord(c, n)), cs + [c], ns + [n];
    AddMemberKeeps(t, n.m, NewRecord(c, n));
    assert cs'[|cs|] == c && ns'[|ns|] == n;
    forall k | 0 <= k < |ns'|
      ensures ns'[k].m in u.members && u.members[ns'[k].m] == NewRecord(cs'[k], ns'[k]) && Listed(u, ns'[k].m)
    {
      assert k < |ns| ==> ns'[k] == ns[k] && cs'[k] == cs[k];
    }
    forall m | m in u.members ensures exists k :: 0 <= k < |ns'| && ns'[k].m == m {
      if m == n.m {
        assert ns'[|ns|].m == m;
      } else {
        var k :| 0 <= k < |ns| && ns[k].m == m;
        assert ns'[k].m == m;
      }
    }
  }

  lemma {:induction false} StartEffect<M>(s: State<M>, cs: seq<ProxyConf>, ns: seq<Newcomer<M>>)
    requires |cs| == |ns| && Partition(s) && s.members == map[] && DistinctObjects(ns)
    ensures Started(StartMembers(s, cs, ns), cs, ns)
    decreases |cs|
  {
    if cs != [] {
      var last := |cs| - 1;
      var before, c := cs[..last], cs[last];
      var others, n := ns[..last], ns[last];
      assert cs == before + [c];
      assert ns == others + [n];
      StartEffect(s, before, others);
      StartedNext(StartMembers(s, before, others), before, others, c, n);
    }
  }

  lemma StartedName<M>(t: State<M>, cs: seq<ProxyConf>, ns: seq<Newcomer<M>>, m: M) returns (k: nat)
    requires Started(t, cs, ns) && m in t.members
    ensures k < |ns| && ns[k].m == m && t.members[m].name == cs[k].name
  {
    k :| 0 <= k < |ns| && ns[k].m == m;
  }

  lemma StartedUnique<M>(t: State<M>, cs: seq<ProxyConf>, ns: seq<Newcomer<M>>)
    requires Started(t, cs, ns) && DistinctNames(cs)
    ensures UniqueNames(t)
  {
    forall m, n | m in t.members && n in t.members && t.members[m].name == t.members[n].name ensures m == n {
      var i := StartedName(t, cs, ns, m);
      var j := StartedName(t, cs, ns, n);
    }
  }

  lemma StartedDistinct<M>(t: State<M>, cs: seq<ProxyConf>, ns: seq<Newcomer<M>>)
    requires Started(t, cs, ns) && UniqueNames(t) && DistinctObjects(ns)
    ensures DistinctNames(cs)
  {
    forall i, j | 0 <= i < j < |cs| ensures cs[i].name != cs[j].name {
      assert t.members[ns[i].m].name == cs[i].name && t.members[ns[j].m].name == cs[j].name;
    }
  }

  /** A start keeps the names of the members different exactly when the configuration does. */
  lemma StartNamesExactly<M>(s: State<M>, cs: seq<ProxyConf>, ns: seq<Newcomer<M>>)
    requires |cs| == |ns| && Partition(s) && s.members == map[] && DistinctObjects(ns)
    ensures UniqueNames(StartMembers(s, cs, ns)) <==> DistinctNames(cs)
  {
    StartEffect(s, cs, ns);
    if DistinctNames(cs) {
      StartedUnique(StartMembers(s, cs, ns), cs, ns);
    }
    if UniqueNames(StartMembers(s, cs, ns)) {
      StartedDistinct(StartMembers(s, cs, ns), cs, ns);
    }
  }

  lemma NewProxyIsAdded<M>(t: State<M>, cs: seq<ProxyConf>, ns: seq<Newcomer<M>>, c: ProxyConf, n: Newcomer<M>)
    requires Started(t, cs, ns) && forall k :: 0 <= k < |cs| ==> cs[k].name != c.name
    ensures ApplyOne(t, c, n) == (AddMember(t, n.m, NewRecord(c, n)), n.m)
  {
    forall m | m in t.members ensures t.members[m].name != c.name {
      var k := StartedName(t, cs, ns, m);
    }
    ByNameIsHasName(t, c.name);
  }

  function Objects<M>(ns: seq<Newcomer<M>>): seq<M> {
    seq(|ns|, i requires 0 <= i < |ns| => ns[i].m)
  }

  lemma {:induction false} StartIsProxyLoop<M>(s: State<M>, cs: seq<ProxyConf>, ns: seq<Newcomer<M>>)
    requires |cs| == |ns| && Partition(s) && s.members == map[] && DistinctObjects(ns) && DistinctNames(cs)
    ensures ApplyAll(s, cs, ns) == (StartMembers(s, cs, ns), Objects(ns))
    decreases |cs|
  {
    if cs != [] {
      var last := |cs| - 1;
      var before, c := cs[..last], cs[last];
      var others, n := ns[..last], ns[last];
      assert cs == before + [c];
      assert ns == others + [n];
      assert Objects(ns) == Objects(others) + [n.m];
      StartIsProxyLoop(s, before, others);
      StartEffect(s, before, others);
      NewProxyIsAdded(StartMembers(s, before, others), before, others, c, n);
      ApplyAllLast(s, before, others, c, n);
    }
  }

  lemma {:induction false} NothingToSweep<M>(shared: bool, s: State<M>, b: seq<M>, i: nat, keep: set<M>)
    requires forall k :: 0 <= k < |b| ==> b[k] in keep
    ensures SweepFrom(shared, s, b, i, keep).0 == s
    decreases |b| - i
  {
    if i < |b| {
      NothingToSweep(shared, s, b, i + 1, keep);
    }
  }

  lemma AllKept<M>(t: State<M>, cs: seq<ProxyConf>, ns: seq<Newcomer<M>>)
    requires Started(t, cs, ns)
    ensures var b := t.active + t.pending; forall k :: 0 <= k < |b| ==> b[k] in Kept(Objects(ns))
  {
    var b := t.active + t.pending;
    forall k | 0 <= k < |b| ensures b[k] in Kept(Objects(ns)) {
      assert b[k] in t.active || b[k] in t.pending;
      var j :| 0 <= j < |ns| && ns[j].m == b[k];
      assert Objects(ns)[j] == b[k];
    }
  }

  lemma StartIsReload<M(!new)>(room: nat, s: State<M>, cs: seq<ProxyConf>, ns: seq<Newcomer<M>>)
    requires |cs| == |ns| && Partition(s) && s.members == map[] && DistinctObjects(ns) && DistinctNames(cs)
    ensures ReloadMembers(room, s, cs, ns).0 == StartMembers(s, cs, ns)
  {
    StartIsProxyLoop(s, cs, ns);
    StartEffect(s, cs, ns);
    var t := StartMembers(s, cs, ns);
    AllKept(t, cs, ns);
    NothingToSweep(Shares(t, room), t, t.active + t.pending, 0, Kept(Objects(ns)));
  }

  /** On an empty cluster a start does what a reload does, exactly when no name is configured twice. */
  lemma StartIsReloadExactly<M(!new)>(room: nat, s: State<M>, cs: seq<ProxyConf>, ns: seq<Newcomer<M>>)
    requires |cs| == |ns| && Partition(s) && s.members == map[] && DistinctObjects(ns)
    ensures ReloadMembers(room, s, cs, ns).0 == StartMembers(s, cs, ns) <==> DistinctNames(cs)
  {
    StartNamesExactly(s, cs, ns);
    ReloadLeads(room, s, cs, ns);
    if DistinctNames(cs) {
      StartIsReload(room, s, cs, ns);
    }
  }

  // ---------------------------------------------------------- all clusters

  function StartState<M>(c: ClusterConf, e: Start<M>): State<M>
    requires |e.newcomers| == |c.proxies|
  {
    StartMembers(Runs.Fresh().(soft := c.soft, relay := c.relay), c.proxies, e.newcomers)
  }

  /** A start that comes to its end: every cluster is made and taken, in order. */
  function StartWorld<M>(cs: seq<ClusterConf>, es: seq<Start<M>>): World<M>
    requires |cs| == |es| && forall i :: 0 <= i < |cs| ==> |es[i].newcomers| == |cs[i].proxies|
    decreases |cs|
  {
    if cs == [] then World([], map[])
    else
      var last := |cs| - 1;
      var w := StartWorld(cs[..last], es[..last]);
      World(w.clusters + [es[last].id], w.table[es[last].id := Named(cs[last].name, StartState(cs[last], es[last]))])
  }

  /** A cluster that a start can make as a reload would. */
  ghost predicate Startable<M>(c: ClusterConf, e: Start<M>) {
    && |e.newcomers| == |c.proxies|
    && e.opens && SupportedPrefix(c.proxies) == |c.proxies|
    && DistinctNames(c.proxies) && DistinctObjects(e.newcomers)
  }

  ghost predicate AllStartable<M>(cs: seq<ClusterConf>, es: seq<Start<M>>) {
    Sized(cs, es) && forall i :: 0 <= i < |cs| ==> Startable(cs[i], es[i])
  }

  lemma StartsCluster<M(!new)>(w: World<M>, c: ClusterConf, e: Start<M>)
    requires w.clusters == [] && Startable(c, e)
    ensures LoadCluster(w, c, e) == (w.(table := w.table[e.id := Named(c.name, StartState(c, e))]), true)
    ensures IdOf(w, c, e) == e.id
  {
    StartIsReload(e.room, Base(w, c), c.proxies, e.newcomers);
  }

  lemma {:induction false} StartLoads<M(!new)>(cs: seq<ClusterConf>, es: seq<Start<M>>)
    requires AllStartable(cs, es)
    ensures var w := StartWorld(cs, es); LoadAll(EmptyWorld(), cs, es) == (World([], w.table), w.clusters, true)
    decreases |cs|
  {
    if cs != [] {
      var last := |cs| - 1;
      var before, c := cs[..last], cs[last];
      var others, e := es[..last], es[last];
      assert cs == before + [c];
      assert es == others + [e];
      StartLoads(before, others);
      LoadAllLast(EmptyWorld(), before, others, c, e);
      StartsCluster(LoadAll(EmptyWorld<M>(), before, others).0, c, e);
    }
  }

  lemma NothingDropped<M(!new)>(cs: seq<ClusterConf>, es: seq<Start<M>>, w: World<M>)
    requires Sized(cs, es) && LoadAll(EmptyWorld(), cs, es) == (World([], w.table), w.clusters, true)
    ensures ReloadAll(EmptyWorld(), cs, es) == (w, true)
  {
    var empty: World<M> := EmptyWorld();
    var (v, ids, ok) := LoadAll(empty, cs, es);
    var dropped := set id | id in empty.clusters && id !in ids;
    assert dropped == {};
    assert CloseDropped(v.table, dropped) == v.table;
  }

  /** The start of the dispatcher is a reload of the empty one, when no cluster repeats the name of a proxy. */
  lemma StartIsFirstReload<M(!new)>(cs: seq<ClusterConf>, es: seq<Start<M>>)
    requires AllStartable(cs, es)
    ensures ReloadAll(EmptyWorld(), cs, es) == (StartWorld(cs, es), true)
  {
    StartLoads(cs, es);
    NothingDropped(cs, es, StartWorld(cs, es));
  }
}
