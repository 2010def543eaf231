/**
  The administration commands that change state: modify on one cluster, and
  reload over all clusters. Clusters are numbered objects; the table holds
  their current state, and a reload that stops half way leaves the table
  changed but the list of clusters as it was.
*/
module Cli {
  import opened Common
  import opened Membership
  import opened Sweep
  import opened Reload
  import Runs
  import Draining

  datatype Named<M> = Named(name: string, state: State<M>)

  datatype World<M> = World(clusters: seq<nat>, table: map<nat, Named<M>>)

  /** `relay` is what update_dnrelay leaves: none if the configured relay cannot be started. */
  datatype ClusterConf = ClusterConf(name: string, soft: bool, relay: Option<Relay>, proxies: seq<ProxyConf>)

  /**
    The environment of one configured cluster: the number of a new object, whether its socket opens, the
    objects of new members, and the capacity of active when the last loop starts.
  */
  datatype Start<M> = Start(id: nat, opens: bool, newcomers: seq<Newcomer<M>>, room: nat)

  function ClusterByName<M>(list: seq<nat>, table: map<nat, Named<M>>, name: string): Option<nat> {
    if list == [] then None
    else if list[0] in table && table[list[0]].name == name then Some(list[0])
    else ClusterByName(list[1..], table, name)
  }

  /** The state a configured cluster starts from, once its own settings are in place. */
  function Base<M>(w: World<M>, c: ClusterConf): State<M> {
    var known := ClusterByName(w.clusters, w.table, c.name);
    var s := if known.Some? && known.value in w.table then w.table[known.value].state else Runs.Fresh();
    s.(soft := c.soft, relay := c.relay)
  }

  function IdOf<M>(w: World<M>, c: ClusterConf, e: Start<M>): nat {
    match ClusterByName(w.clusters, w.table, c.name)
    case Some(id) => id
    case None => e.id
  }

  /** One cluster of the configuration; false when the reload stops here. */
  function LoadCluster<M>(w: World<M>, c: ClusterConf, e: Start<M>): (World<M>, bool)
    requires |e.newcomers| == |c.proxies|
  {
    if ClusterByName(w.clusters, w.table, c.name).None? && !e.opens then (w, false)
    else
      var n := SupportedPrefix(c.proxies);
      var id := IdOf(w, c, e);
      if n == |c.proxies| then
        (w.(table := w.table[id := Named(c.name, ReloadMembers(e.room, Base(w, c), c.proxies, e.newcomers).0)]), true)
      else
        (w.(table := w.table[id := Named(c.name, ApplyAll(Base(w, c), c.proxies[..n], e.newcomers[..n]).0)]), false)
  }

  /** The loop over the configuration; it stops after the first failure. */
  function LoadAll<M>(w: World<M>, cs: seq<ClusterConf>, es: seq<Start<M>>): (World<M>, seq<nat>, bool)
    requires |cs| == |es| && forall i :: 0 <= i < |cs| ==> |es[i].newcomers| == |cs[i].proxies|
    decreases |cs|
  {
    if cs == [] then (w, [], true)
    else
      var last := |cs| - 1;
      var (v, ids, ok) := LoadAll(w, cs[..last], es[..last]);
      if !ok then (v, ids, false)
      else
        var (u, good) := LoadCluster(v, cs[last], es[last]);
        (u, if good then ids + [IdOf(v, cs[last], es[last])] else ids, good)
  }

  function CloseDropped<M>(table: map<nat, Named<M>>, dropped: set<nat>): map<nat, Named<M>> {
    map id | id in table :: if id in dropped then table[id].(state := Close(table[id].state)) else table[id]
  }

  function ReloadAll<M>(w: World<M>, cs: seq<ClusterConf>, es: seq<Start<M>>): (World<M>, bool)
    requires |cs| == |es| && forall i :: 0 <= i < |cs| ==> |es[i].newcomers| == |cs[i].proxies|
  {
    var (v, ids, ok) := LoadAll(w, cs, es);
    if !ok then (v, false)
    else (World(ids, CloseDropped(v.table, set id | id in w.clusters && id !in ids)), true)
  }

  // ---------------------------------------------------------------- reload

  ghost predicate Tabled<M>(w: World<M>) {
    forall i :: 0 <= i < |w.clusters| ==> w.clusters[i] in w.table
  }

  ghost predicate OneClusterPerName<M>(w: World<M>)
    requires Tabled(w)
  {
    forall i, j :: 0 <= i < |w.clusters| && 0 <= j < |w.clusters| ==>
      (w.table[w.clusters[i]].name == w.table[w.clusters[j]].name ==> w.clusters[i] == w.clusters[j])
  }

  ghost predicate GoodWorld<M>(w: World<M>) {
    && Tabled(w)
    && OneClusterPerName(w)
    && (forall id :: id in w.table ==> Partition(w.table[id].state) && UniqueNames(w.table[id].state))
  }

  ghost predicate GoodConf<M>(w: World<M>, cs: seq<ClusterConf>, es: seq<Start<M>>) {
    && |cs| == |es|
    && (forall i, j :: 0 <= i < j < |cs| ==> cs[i].name != cs[j].name)
    && (forall i, j :: 0 <= i < j < |cs| ==> es[i].id != es[j].id)
    && (forall i :: 0 <= i < |cs| ==> es[i].id !in w.table && |es[i].newcomers| == |cs[i].proxies|)
  }

  lemma {:induction false} ClusterByNameFinds<M>(list: seq<nat>, table: map<nat, Named<M>>, name: string)
    requires forall i :: 0 <= i < |list| ==> list[i] in table
    ensures match ClusterByName(list, table, name)
      case Some(id) => id in list && id in table && table[id].name == name
      case None => forall i :: 0 <= i < |list| ==> table[list[i]].name != name
  {
    if list != [] {
      ClusterByNameFinds(list[1..], table, name);
      forall i | 0 <= i < |list| && ClusterByName(list, table, name).None? ensures table[list[i]].name != name {
        assert i > 0 ==> list[i] == list[1..][i - 1];
      }
    }
  }

  /** What the search by name returns while the reload runs: it still sees the old list with the old names. */
  ghost predicate SameNames<M>(w: World<M>, v: World<M>) {
    && v.clusters == w.clusters
    && w.table.Keys <= v.table.Keys
    && forall id :: id in w.table ==> v.table[id].name == w.table[id].name
  }

  lemma {:induction false} SearchUnchanged<M>(list: seq<nat>, t: map<nat, Named<M>>, u: map<nat, Named<M>>,
                                              name: string)
    requires forall i :: 0 <= i < |list| ==> list[i] in t && list[i] in u && t[list[i]].name == u[list[i]].name
    ensures ClusterByName(list, t, name) == ClusterByName(list, u, name)
  {
    if list != [] {
      assert list[0] in t && list[0] in u;
      forall i | 0 <= i < |list[1..]|
        ensures list[1..][i] in t && list[1..][i] in u && t[list[1..][i]].name == u[list[1..][i]].name {
        assert list[1..][i] == list[i + 1];
      }
      SearchUnchanged(list[1..], t, u, name);
    }
  }

  lemma IdsDiffer<M>(w: World<M>, c1: ClusterConf, e1: Start<M>, c2: ClusterConf, e2: Start<M>)
    requires GoodWorld(w) && c1.name != c2.name && e1.id != e2.id && e1.id !in w.table && e2.id !in w.table
    ensures IdOf(w, c1, e1) != IdOf(w, c2, e2)
  {
    ClusterByNameFinds(w.clusters, w.table, c1.name);
    ClusterByNameFinds(w.clusters, w.table, c2.name);
  }

  function Result<M>(w: World<M>, c: ClusterConf, e: Start<M>): Named<M>
    requires |e.newcomers| == |c.proxies|
  {
    Named(c.name, ReloadMembers(e.room, Base(w, c), c.proxies, e.newcomers).0)
  }

  /** The entry of one configured cluster, loaded from its own old state. */
  ghost predicate EntryLoaded<M>(w: World<M>, v: World<M>, id: nat, c: ClusterConf, e: Start<M>) {
    && |e.newcomers| == |c.proxies|
    && id == IdOf(w, c, e)
    && id in v.table
    && v.table[id] == Result(w, c, e)
  }

  ghost predicate Loaded<M>(w: World<M>, v: World<M>, ids: seq<nat>, cs: seq<ClusterConf>, es: seq<Start<M>>) {
    && |ids| == |cs| == |es|
    && SameNames(w, v)
    && (forall k :: 0 <= k < |ids| ==> EntryLoaded(w, v, ids[k], cs[k], es[k]))
    && (forall id :: id in w.table && id !in ids ==> v.table[id] == w.table[id])
  }

  /** A cluster not loaded yet is found under the same number and starts from its old state. */
  lemma NotLoadedYet<M>(w: World<M>, v: World<M>, ids: seq<nat>, cs: seq<ClusterConf>, es: seq<Start<M>>,
                        c: ClusterConf, e: Start<M>)
    requires GoodWorld(w) && Loaded(w, v, ids, cs, es) && |e.newcomers| == |c.proxies| && e.id !in w.table
    requires forall k :: 0 <= k < |cs| ==> cs[k].name != c.name && es[k].id != e.id && es[k].id !in w.table
    ensures IdOf(v, c, e) == IdOf(w, c, e) && IdOf(w, c, e) !in ids
    ensures Result(v, c, e) == Result(w, c, e)
  {
    SearchUnchanged(w.clusters, w.table, v.table, c.name);
    ClusterByNameFinds(w.clusters, w.table, c.name);
    forall k | 0 <= k < |ids| ensures ids[k] != IdOf(w, c, e) {
      assert EntryLoaded(w, v, ids[k], cs[k], es[k]);
      IdsDiffer(w, cs[k], es[k], c, e);
    }
    assert Base(v, c) == Base(w, c);
  }

  lemma BaseStays<M>(w: World<M>, v: World<M>, ids: seq<nat>, cs: seq<ClusterConf>, es: seq<Start<M>>,
                     c: ClusterConf, e: Start<M>)
    requires GoodWorld(w) && Loaded(w, v, ids, cs, es) && IdOf(w, c, e) !in ids
    ensures Base(v, c) == Base(w, c)
  {
    SearchUnchanged(w.clusters, w.table, v.table, c.name);
    ClusterByNameFinds(w.clusters, w.table, c.name);
  }

  lemma EntryStays<M>(w: World<M>, v: World<M>, u: World<M>, id: nat, c: ClusterConf, e: Start<M>)
    requires EntryLoaded(w, v, id, c, e) && id in u.table && u.table[id] == v.table[id]
    ensures EntryLoaded(w, u, id, c, e)
  {
  }

  lemma NamesStay<M>(w: World<M>, v: World<M>, c: ClusterConf, e: Start<M>, r: Named<M>)
    requires GoodWorld(w) && SameNames(w, v) && r.name == c.name && e.id !in w.table
    ensures SameNames(w, v.(table := v.table[IdOf(w, c, e) := r]))
  {
    ClusterByNameFinds(w.clusters, w.table, c.name);
  }

  lemma EntriesAdded<M>(w: World<M>, v: World<M>, u: World<M>, ids: seq<nat>, cs: seq<ClusterConf>, es: seq<Start<M>>,
                        id: nat, c: ClusterConf, e: Start<M>)
    requires |ids| == |cs| == |es| && forall k :: 0 <= k < |ids| ==> EntryLoaded(w, v, ids[k], cs[k], es[k])
    requires forall k :: 0 <= k < |ids| && ids[k] in v.table ==> ids[k] in u.table && u.table[ids[k]] == v.table[ids[k]]
    requires EntryLoaded(w, u, id, c, e)
    ensures forall k :: 0 <= k <= |ids| ==> EntryLoaded(w, u, (ids + [id])[k], (cs + [c])[k], (es + [e])[k])
  {
    forall k | 0 <= k < |ids| ensures EntryLoaded(w, u, ids[k], cs[k], es[k]) {
      EntryStays(w, v, u, ids[k], cs[k], es[k]);
    }
  }

  lemma OthersAdded<M>(w: World<M>, v: World<M>, ids: seq<nat>, id: nat, r: Named<M>)
    requires forall i :: i in w.table && i !in ids ==> i in v.table && v.table[i] == w.table[i]
    ensures var u := v.(table := v.table[id := r]);
      forall i :: i in w.table && i !in ids + [id] ==> i in u.table && u.table[i] == w.table[i]
  {
  }

  lemma EntryAdded<M>(w: World<M>, v: World<M>, u: World<M>, ids: seq<nat>, cs: seq<ClusterConf>, es: seq<Start<M>>,
                      id: nat, c: ClusterConf, e: Start<M>)
    requires GoodWorld(w) && Loaded(w, v, ids, cs, es) && |e.newcomers| == |c.proxies|
    requires id == IdOf(w, c, e) && id !in ids && e.id !in w.table
    requires u == v.(table := v.table[id := Result(w, c, e)])
    ensures Loaded(w, u, ids + [id], cs + [c], es + [e])
  {
    assert SameNames(w, u) by {
      NamesStay(w, v, c, e, Result(w, c, e));
    }
    assert EntryLoaded(w, u, id, c, e);
    EntriesAdded(w, v, u, ids, cs, es, id, c, e);
    OthersAdded(w, v, ids, id, Result(w, c, e));
  }

  lemma LoadClusterEffect<M>(v: World<M>, c: ClusterConf, e: Start<M>)
    requires |e.newcomers| == |c.proxies| && LoadCluster(v, c, e).1
    ensures LoadCluster(v, c, e).0 == v.(table := v.table[IdOf(v, c, e) := Result(v, c, e)])
  {
  }

  ghost predicate Sized<M>(cs: seq<ClusterConf>, es: seq<Start<M>>) {
    |cs| == |es| && forall i :: 0 <= i < |cs| ==> |es[i].newcomers| == |cs[i].proxies|
  }

  /** One more cluster of the configuration. */
  lemma LoadAllLast<M>(w: World<M>, cs: seq<ClusterConf>, es: seq<Start<M>>, c: ClusterConf, e: Start<M>)
    requires Sized(cs, es) && |e.newcomers| == |c.proxies|
    ensures Sized(cs + [c], es + [e])
    ensures var (v, ids, ok) := LoadAll(w, cs, es);
      var (u, good) := LoadCluster(v, c, e);
      LoadAll(w, cs + [c], es + [e]) ==
        if ok then (u, if good then ids + [IdOf(v, c, e)] else ids, good) else (v, ids, false)
  {
    assert (cs + [c])[..|cs|] == cs && (es + [e])[..|es|] == es;
  }

  /** What a loop that runs through leaves. */
  ghost predicate AllLoaded<M>(w: World<M>, cs: seq<ClusterConf>, es: seq<Start<M>>)
    requires Sized(cs, es)
  {
    var (v, ids, ok) := LoadAll(w, cs, es); ok ==> Loaded(w, v, ids, cs, es)
  }

  lemma AllLoadedNext<M>(w: World<M>, cs: seq<ClusterConf>, es: seq<Start<M>>, c: ClusterConf, e: Start<M>)
    requires GoodWorld(w) && Sized(cs, es) && AllLoaded(w, cs, es) && |e.newcomers| == |c.proxies| && e.id !in w.table
    requires forall k :: 0 <= k < |cs| ==> cs[k].name != c.name && es[k].id != e.id && es[k].id !in w.table
    ensures Sized(cs + [c], es + [e]) && AllLoaded(w, cs + [c], es + [e])
  {
    LoadAllLast(w, cs, es, c, e);
    var (v, ids, ok) := LoadAll(w, cs, es);
    if ok && LoadCluster(v, c, e).1 {
      LoadClusterEffect(v, c, e);
      NotLoadedYet(w, v, ids, cs, es, c, e);
      EntryAdded(w, v, LoadCluster(v, c, e).0, ids, cs, es, IdOf(w, c, e), c, e);
    }
  }

  lemma GoodConfPrefix<M>(w: World<M>, cs: seq<ClusterConf>, es: seq<Start<M>>, n: nat)
    requires GoodConf(w, cs, es) && n <= |cs|
    ensures GoodConf(w, cs[..n], es[..n])
  {
  }

  lemma {:induction false} LoadAllEffect<M>(w: World<M>, cs: seq<ClusterConf>, es: seq<Start<M>>)
    requires GoodWorld(w) && GoodConf(w, cs, es)
    ensures AllLoaded(w, cs, es)
    decreases |cs|
  {
    if cs != [] {
      var last := |cs| - 1;
      assert cs[..last] + [cs[last]] == cs && es[..last] + [es[last]] == es;
      GoodConfPrefix(w, cs, es, last);
      LoadAllEffect(w, cs[..last], es[..last]);
      AllLoadedNext(w, cs[..last], es[..last], cs[last], es[last]);
    }
  }

  /** The configuration of one cluster can be carried out in full. */
  ghost predicate Loadable<M>(w: World<M>, c: ClusterConf, e: Start<M>) {
    && |e.newcomers| == |c.proxies|
    && DistinctNames(c.proxies)
    && NewObjects(Base(w, c), c.proxies, e.newcomers)
    && (!WillShare(e.room, Base(w, c), c.proxies, e.newcomers) || !LeavesUnwanted(Base(w, c), c.proxies, e.newcomers))
  }

  /**
    State s is where the cluster of this number starts from: the state of the old cluster of the configured name,
    or an empty one if there is none, with the limit and the relay of the configuration.
  */
  ghost predicate StartsFrom<M>(w: World<M>, c: ClusterConf, e: Start<M>, id: nat, s: State<M>) {
    if exists k :: k in w.clusters && k in w.table && w.table[k].name == c.name then
      id in w.clusters && id in w.table && w.table[id].name == c.name
      && s == w.table[id].state.(soft := c.soft, relay := c.relay)
    else id == e.id && s == State([], [], map[], c.soft, c.relay)
  }

  lemma BaseStarts<M>(w: World<M>, c: ClusterConf, e: Start<M>)
    requires GoodWorld(w)
    ensures StartsFrom(w, c, e, IdOf(w, c, e), Base(w, c))
  {
    ClusterByNameFinds(w.clusters, w.table, c.name);
  }

  /** The cluster under this number has the configured name and is reconciled from its own old state. */
  ghost predicate ClusterReconciled<M>(w: World<M>, u: World<M>, id: nat, c: ClusterConf, e: Start<M>) {
    && |e.newcomers| == |c.proxies|
    && StartsFrom(w, c, e, id, Base(w, c))
    && id in u.table
    && u.table[id].name == c.name
    && u.table[id].state.soft == c.soft
    && u.table[id].state.relay == c.relay
    && var ms := ReloadMembers(e.room, Base(w, c), c.proxies, e.newcomers).1;
       Reconciled(Base(w, c), u.table[id].state, c.proxies, ms, e.newcomers)
  }

  lemma LoadedIsReconciled<M>(w: World<M>, v: World<M>, id: nat, c: ClusterConf, e: Start<M>)
    requires GoodWorld(w) && EntryLoaded(w, v, id, c, e) && Loadable(w, c, e)
    ensures ClusterReconciled(w, v, id, c, e)
  {
    BaseIsGood(w, c);
    BaseStarts(w, c, e);
    ReloadReconcilesExactly(e.room, Base(w, c), c.proxies, e.newcomers);
    ApplyAllEffect(Base(w, c), c.proxies, e.newcomers);
    var (t, ms) := ApplyAll(Base(w, c), c.proxies, e.newcomers);
    SweepEffect(Shares(t, e.room), t, t.active + t.pending, 0, Kept(ms));
  }

  // ------------------------------------------------------ running through

  ghost predicate Known<M>(w: World<M>, name: string) {
    ClusterByName(w.clusters, w.table, name).Some?
  }

  /**
    A cluster of the configuration that does not stop the reload: it is there or its socket opens, and its
    protocols are known.
  */
  ghost predicate Carries<M>(w: World<M>, c: ClusterConf, e: Start<M>) {
    && (Known(w, c.name) || e.opens)
    && forall i :: 0 <= i < |c.proxies| ==> Supported(c.proxies[i].protocol)
  }

  /** A cluster whose proxies have been applied up to the first unsupported protocol, and none brought down. */
  function Partial<M>(w: World<M>, c: ClusterConf, e: Start<M>): Named<M>
    requires |e.newcomers| == |c.proxies|
  {
    var n := SupportedPrefix(c.proxies);
    Named(c.name, ApplyAll(Base(w, c), c.proxies[..n], e.newcomers[..n]).0)
  }

  /** The entry that loading a cluster writes, in full or in part. */
  function Entry<M>(w: World<M>, c: ClusterConf, e: Start<M>): (r: Named<M>)
    requires |e.newcomers| == |c.proxies|
    ensures r.name == c.name
  {
    if SupportedPrefix(c.proxies) == |c.proxies| then Result(w, c, e) else Partial(w, c, e)
  }

  lemma LoadClusterShape<M>(w: World<M>, c: ClusterConf, e: Start<M>)
    requires |e.newcomers| == |c.proxies|
    ensures var (u, ok) := LoadCluster(w, c, e);
      && (ok <==> Carries(w, c, e))
      && u == if Known(w, c.name) || e.opens then w.(table := w.table[IdOf(w, c, e) := Entry(w, c, e)]) else w
  {
  }

  /** The number for a new cluster is a new one, at the moment when the cluster is made. */
  ghost predicate NumbersNew<M>(w: World<M>, cs: seq<ClusterConf>, es: seq<Start<M>>)
    requires Sized(cs, es)
    decreases |cs|
  {
    cs == [] ||
    var last := |cs| - 1;
    && NumbersNew(w, cs[..last], es[..last])
    && (LoadAll(w, cs[..last], es[..last]).2 && !Known(w, cs[last].name) ==> es[last].id !in w.table)
  }

  lemma {:induction false} NumbersNewByConf<M>(w: World<M>, cs: seq<ClusterConf>, es: seq<Start<M>>)
    requires GoodConf(w, cs, es)
    ensures NumbersNew(w, cs, es)
    decreases |cs|
  {
    if cs != [] {
      GoodConfPrefix(w, cs, es, |cs| - 1);
      NumbersNewByConf(w, cs[..|cs| - 1], es[..|cs| - 1]);
    }
  }

  /** The loop runs through exactly when nothing stops it, and leaves the old names. */
  ghost predicate RunsRight<M>(w: World<M>, cs: seq<ClusterConf>, es: seq<Start<M>>)
    requires Sized(cs, es)
  {
    var (v, ids, ok) := LoadAll(w, cs, es);
    && SameNames(w, v)
    && (ok <==> forall k :: 0 <= k < |cs| ==> Carries(w, cs[k], es[k]))
  }

  lemma SameKnown<M>(w: World<M>, v: World<M>, c: ClusterConf, e: Start<M>)
    requires Tabled(w) && SameNames(w, v)
    ensures Known(v, c.name) <==> Known(w, c.name)
    ensures Carries(v, c, e) <==> Carries(w, c, e)
    ensures IdOf(v, c, e) == IdOf(w, c, e)
  {
    SearchUnchanged(w.clusters, w.table, v.table, c.name);
  }

  lemma LoadKeepsNames<M>(w: World<M>, v: World<M>, c: ClusterConf, e: Start<M>)
    requires Tabled(w) && SameNames(w, v) && |e.newcomers| == |c.proxies| && (!Known(w, c.name) ==> e.id !in w.table)
    ensures SameNames(w, LoadCluster(v, c, e).0)
  {
    SameKnown(w, v, c, e);
    ClusterByNameFinds(w.clusters, w.table, c.name);
    LoadClusterShape(v, c, e);
  }

  lemma RunsNext<M>(w: World<M>, cs: seq<ClusterConf>, es: seq<Start<M>>, c: ClusterConf, e: Start<M>)
    requires Tabled(w) && Sized(cs, es) && RunsRight(w, cs, es) && |e.newcomers| == |c.proxies|
    requires LoadAll(w, cs, es).2 && !Known(w, c.name) ==> e.id !in w.table
    ensures Sized(cs + [c], es + [e]) && RunsRight(w, cs + [c], es + [e])
  {
    var cs', es' := cs + [c], es + [e];
    LoadAllLast(w, cs, es, c, e);
    var (v, ids, ok) := LoadAll(w, cs, es);
    assert forall k :: 0 <= k < |cs| ==> cs'[k] == cs[k] && es'[k] == es[k];
    assert cs'[|cs|] == c && es'[|cs|] == e;
    if ok {
      LoadKeepsNames(w, v, c, e);
      LoadClusterShape(v, c, e);
      SameKnown(w, v, c, e);
    }
  }

  lemma {:induction false} LoadAllRuns<M>(w: World<M>, cs: seq<ClusterConf>, es: seq<Start<M>>)
    requires Tabled(w) && Sized(cs, es) && NumbersNew(w, cs, es)
    ensures RunsRight(w, cs, es)
    decreases |cs|
  {
    if cs != [] {
      var last := |cs| - 1;
      var before, c := cs[..last], cs[last];
      var others, e := es[..last], es[last];
      assert cs == before + [c];
      assert es == others + [e];
      LoadAllRuns(w, before, others);
      RunsNext(w, before, others, c, e);
    }
  }

  /** A reload runs through exactly when every cluster is there or its socket opens, and every protocol is supported. */
  lemma ReloadRunsThroughExactly<M>(w: World<M>, cs: seq<ClusterConf>, es: seq<Start<M>>)
    requires Tabled(w) && Sized(cs, es) && NumbersNew(w, cs, es)
    ensures ReloadAll(w, cs, es).1 <==> forall k :: 0 <= k < |cs| ==> Carries(w, cs[k], es[k])
  {
    LoadAllRuns(w, cs, es);
  }

  // -------------------------------------------------------------- stopping

  /** Cluster k is the first that stops the reload. */
  ghost predicate FirstBlocked<M>(w: World<M>, cs: seq<ClusterConf>, es: seq<Start<M>>, k: nat) {
    && k < |cs| == |es| && !Carries(w, cs[k], es[k])
    && forall j :: 0 <= j < k ==> Carries(w, cs[j], es[j])
  }

  /** What a reload leaves that cluster k has stopped. */
  ghost predicate StoppedAt<M>(w: World<M>, cs: seq<ClusterConf>, es: seq<Start<M>>, k: nat)
    requires GoodConf(w, cs, es) && k < |cs|
  {
    var (u, ok) := ReloadAll(w, cs, es);
    && !ok && u.clusters == w.clusters
    && (forall j :: 0 <= j < k ==> EntryLoaded(w, u, IdOf(w, cs[j], es[j]), cs[j], es[j]))
    && (forall j :: 0 <= j < k && Loadable(w, cs[j], es[j]) ==>
          ClusterReconciled(w, u, IdOf(w, cs[j], es[j]), cs[j], es[j]))
    && (Known(w, cs[k].name) || es[k].opens ==>
          var id := IdOf(w, cs[k], es[k]); id in u.table && u.table[id] == Partial(w, cs[k], es[k]))
    && (forall id :: id in w.table && (forall j :: 0 <= j <= k ==> id != IdOf(w, cs[j], es[j])) ==>
          id in u.table && u.table[id] == w.table[id])
  }

  lemma {:induction false} StopsForGood<M>(w: World<M>, cs: seq<ClusterConf>, es: seq<Start<M>>, n: nat)
    requires Sized(cs, es) && n <= |cs| && !LoadAll(w, cs[..n], es[..n]).2
    ensures LoadAll(w, cs, es) == LoadAll(w, cs[..n], es[..n])
    decreases |cs|
  {
    if n == |cs| {
      assert cs[..n] == cs && es[..n] == es;
    } else {
      var last := |cs| - 1;
      assert cs[..last][..n] == cs[..n] && es[..last][..n] == es[..n];
      StopsForGood(w, cs[..last], es[..last], n);
    }
  }

  /** The loop up to and including the cluster that stops it. */
  lemma {:induction false} StopsAt<M>(w: World<M>, cs: seq<ClusterConf>, es: seq<Start<M>>, k: nat)
    requires GoodWorld(w) && GoodConf(w, cs, es) && FirstBlocked(w, cs, es, k)
    ensures var (v, ids, ok) := LoadAll(w, cs[..k], es[..k]);
      && ok && Loaded(w, v, ids, cs[..k], es[..k])
      && LoadAll(w, cs, es) == (LoadCluster(v, cs[k], es[k]).0, ids, false)
  {
    var before, others := cs[..k], es[..k];
    assert cs[..k + 1] == before + [cs[k]] && es[..k + 1] == others + [es[k]];
    GoodConfPrefix(w, cs, es, k);
    NumbersNewByConf(w, before, others);
    LoadAllRuns(w, before, others);
    assert forall j :: 0 <= j < k ==> Carries(w, before[j], others[j]);
    LoadAllEffect(w, before, others);
    LoadAllLast(w, before, others, cs[k], es[k]);
    var v := LoadAll(w, before, others).0;
    SameKnown(w, v, cs[k], es[k]);
    LoadClusterShape(v, cs[k], es[k]);
    StopsForGood(w, cs, es, k + 1);
  }

  /** The last cluster, as far as it got, and nothing else. */
  lemma PartialEntry<M>(w: World<M>, v: World<M>, c: ClusterConf, e: Start<M>)
    requires |e.newcomers| == |c.proxies| && Base(v, c) == Base(w, c) && !LoadCluster(v, c, e).1
    ensures LoadCluster(v, c, e).0 ==
      if Known(v, c.name) || e.opens then v.(table := v.table[IdOf(v, c, e) := Partial(w, c, e)]) else v
  {
    LoadClusterShape(v, c, e);
  }

  lemma BlockedEntry<M>(w: World<M>, v: World<M>, ids: seq<nat>, cs: seq<ClusterConf>, es: seq<Start<M>>,
                        c: ClusterConf, e: Start<M>)
    requires GoodWorld(w) && Loaded(w, v, ids, cs, es) && |e.newcomers| == |c.proxies| && e.id !in w.table
    requires forall k :: 0 <= k < |cs| ==> cs[k].name != c.name && es[k].id != e.id && es[k].id !in w.table
    requires !Carries(w, c, e)
    ensures var id := IdOf(w, c, e);
      && id !in ids
      && LoadCluster(v, c, e).0 == if Known(w, c.name) || e.opens then v.(table := v.table[id := Partial(w, c, e)])
            else v
  {
    NotLoadedYet(w, v, ids, cs, es, c, e);
    BaseStays(w, v, ids, cs, es, c, e);
    SameKnown(w, v, c, e);
    LoadClusterShape(v, c, e);
    PartialEntry(w, v, c, e);
  }

  /** The state at the stop: the clusters before k are loaded, cluster k in part, and the others as they were. */
  lemma StoppedState<M>(w: World<M>, cs: seq<ClusterConf>, es: seq<Start<M>>, k: nat)
    requires GoodWorld(w) && GoodConf(w, cs, es) && FirstBlocked(w, cs, es, k)
    ensures var (v, ids, ok) := LoadAll(w, cs[..k], es[..k]);
      var id, u := IdOf(w, cs[k], es[k]), ReloadAll(w, cs, es).0;
      && Loaded(w, v, ids, cs[..k], es[..k]) && id !in ids && !ReloadAll(w, cs, es).1
      && u == if Known(w, cs[k].name) || es[k].opens then v.(table := v.table[id := Partial(w, cs[k], es[k])]) else v
  {
    StopsAt(w, cs, es, k);
    var (v, ids, ok) := LoadAll(w, cs[..k], es[..k]);
    BlockedEntry(w, v, ids, cs[..k], es[..k], cs[k], es[k]);
  }

  lemma LoadedBefore<M>(w: World<M>, v: World<M>, u: World<M>, ids: seq<nat>, cs: seq<ClusterConf>, es: seq<Start<M>>,
                        j: nat)
    requires Loaded(w, v, ids, cs, es) && j < |cs| && ids[j] in u.table && u.table[ids[j]] == v.table[ids[j]]
    ensures EntryLoaded(w, u, IdOf(w, cs[j], es[j]), cs[j], es[j])
  {
    assert EntryLoaded(w, v, ids[j], cs[j], es[j]);
    EntryStays(w, v, u, ids[j], cs[j], es[j]);
  }

  lemma OthersBefore<M>(w: World<M>, v: World<M>, ids: seq<nat>, cs: seq<ClusterConf>, es: seq<Start<M>>, id: nat)
    requires Loaded(w, v, ids, cs, es) && id in w.table
    requires forall j :: 0 <= j < |cs| ==> id != IdOf(w, cs[j], es[j])
    ensures id in v.table && v.table[id] == w.table[id]
  {
    forall j | 0 <= j < |ids| ensures ids[j] != id {
      assert EntryLoaded(w, v, ids[j], cs[j], es[j]);
    }
  }

  /** A stopped reload has carried out the clusters before, reached into the one that stopped it, and closed none. */
  lemma StoppedReloadExactly<M>(w: World<M>, cs: seq<ClusterConf>, es: seq<Start<M>>, k: nat)
    requires GoodWorld(w) && GoodConf(w, cs, es) && FirstBlocked(w, cs, es, k)
    ensures StoppedAt(w, cs, es, k)
  {
    StoppedState(w, cs, es, k);
    var (v, ids, ok) := LoadAll(w, cs[..k], es[..k]);
    var u := ReloadAll(w, cs, es).0;
    forall j | 0 <= j < k
      ensures EntryLoaded(w, u, IdOf(w, cs[j], es[j]), cs[j], es[j])
      ensures Loadable(w, cs[j], es[j]) ==> ClusterReconciled(w, u, IdOf(w, cs[j], es[j]), cs[j], es[j])
    {
      assert ids[j] in ids && EntryLoaded(w, v, ids[j], cs[..k][j], es[..k][j]);
      LoadedBefore(w, v, u, ids, cs[..k], es[..k], j);
      if Loadable(w, cs[j], es[j]) {
        LoadedIsReconciled(w, u, IdOf(w, cs[j], es[j]), cs[j], es[j]);
      }
    }
    forall id | id in w.table && forall j :: 0 <= j <= k ==> id != IdOf(w, cs[j], es[j])
      ensures id in u.table && u.table[id] == w.table[id]
    {
      OthersBefore(w, v, ids, cs[..k], es[..k], id);
    }
  }

  /**
    After a reload that nothing stops, each configured cluster keeps its object and is reconciled, and dropped
    clusters are shut down.
  */
  lemma ReloadAllReconciles<M>(w: World<M>, cs: seq<ClusterConf>, es: seq<Start<M>>)
    requires GoodWorld(w) && GoodConf(w, cs, es)
    requires forall k :: 0 <= k < |cs| ==> Carries(w, cs[k], es[k]) && Loadable(w, cs[k], es[k])
    ensures var (u, through) := ReloadAll(w, cs, es);
      && through && |u.clusters| == |cs|
      && (forall k :: 0 <= k < |cs| ==> ClusterReconciled(w, u, u.clusters[k], cs[k], es[k]))
      && (forall id :: id in w.clusters && id !in u.clusters ==>
            id in w.table && id in u.table && u.table[id].state == Close(w.table[id].state))
  {
    NumbersNewByConf(w, cs, es);
    ReloadRunsThroughExactly(w, cs, es);
    LoadAllEffect(w, cs, es);
    var (v, ids, ok) := LoadAll(w, cs, es);
    var u := ReloadAll(w, cs, es).0;
    forall k | 0 <= k < |cs| ensures ClusterReconciled(w, u, u.clusters[k], cs[k], es[k]) {
      assert EntryLoaded(w, v, ids[k], cs[k], es[k]);
      LoadedIsReconciled(w, v, ids[k], cs[k], es[k]);
      assert ids[k] in ids && u.table[ids[k]] == v.table[ids[k]];
    }
  }

  lemma BaseIsGood<M>(w: World<M>, c: ClusterConf)
    requires GoodWorld(w)
    ensures Partition(Base(w, c)) && UniqueNames(Base(w, c))
  {
    ClusterByNameFinds(w.clusters, w.table, c.name);
  }

  /** A closed cluster has no member left, and each of its members is shut down. */
  lemma ClosedClusterIsEmpty<M>(s: State<M>, m: M)
    requires Partition(s) && m in s.members
    ensures Close(s).active == [] && Close(s).pending == [] && Close(s).members[m].down
  {
  }

  // ---------------------------------------------------------------- modify

  datatype Modify<M> =
    | Add(c: ProxyConf, n: Newcomer<M>)
    | Remove(name: string)
    | Pause(name: string)
    | Resume(name: string)

  /** modify on one cluster; false stands for an error message and an unchanged cluster. */
  function Apply<M>(s: State<M>, cmd: Modify<M>): (State<M>, bool) {
    var list := s.active + s.pending;
    match cmd
    case Add(c, n) =>
      if ByName(list, s.members, c.name).Some? || !Supported(c.protocol) then (s, false)
      else (AddMember(s, n.m, NewRecord(c, n)), true)
    case Remove(name) => (match ByName(list, s.members, name)
                          case None => (s, false)
                          case Some(m) => if m in s.members then (BringDown(s, m), true) else (s, false))
    case Pause(name) => (match ByName(list, s.members, name)
                         case None => (s, false)
                         case Some(m) => if m in s.members then (SetStatus(s, m, SUSPENDED), true) else (s, false))
    case Resume(name) => (match ByName(list, s.members, name)
                          case None => (s, false)
                          case Some(m) => if m in s.members then (SetStatus(s, m, ACTIVE), true) else (s, false))
  }

  lemma AddKeepsNames<M>(s: State<M>, c: ProxyConf, n: Newcomer<M>)
    requires Partition(s) && UniqueNames(s) && n.m !in s.members && !HasName(s, c.name)
    ensures var t := AddMember(s, n.m, NewRecord(c, n)); Partition(t) && UniqueNames(t) && HasName(t, c.name)
  {
    JoinEffect(s, c, n);
    var t := AddMember(s, n.m, NewRecord(c, n));
    AppliedKeepsNames(s, t, n.m, c, n);
  }

  ghost predicate IsNamed<M>(s: State<M>, m: M, name: string) {
    m in s.members && Listed(s, m) && s.members[m].name == name
  }

  /** The other members are as before. */
  ghost predicate OnlyTouches<M>(s: State<M>, t: State<M>, m: M) {
    && t.members.Keys == s.members.Keys
    && t.soft == s.soft && t.relay == s.relay
    && (forall x :: x in s.members && x != m ==> t.members[x] == s.members[x] && (Listed(t, x) <==> Listed(s, x)))
  }

  /** Only the status of m has changed. */
  ghost predicate StatusBecomes<M>(s: State<M>, t: State<M>, m: M, status: Status) {
    && OnlyTouches(s, t, m) && t.active == s.active && t.pending == s.pending
    && m in s.members && t.members[m] == s.members[m].(status := status)
  }

  /** m is gone if it was offline or idle, and draining in its place otherwise. */
  ghost predicate Removes<M>(s: State<M>, t: State<M>, m: M) {
    && OnlyTouches(s, t, m)
    && m in s.members
    && (if m in s.pending || s.members[m].calls.young == {} || s.members[m].sessions <= 0
        then t.members[m].down && !Listed(t, m)
        else Draining.Drains(t, m) && t.active == s.active && t.pending == s.pending)
  }

  lemma TakenExactly<M>(s: State<M>, cmd: Modify<M>)
    requires Partition(s) && !cmd.Add?
    ensures Apply(s, cmd).1 <==> HasName(s, cmd.name)
    ensures !Apply(s, cmd).1 ==> Apply(s, cmd).0 == s
  {
    ByNameIsHasName(s, cmd.name);
  }

  /** What modify does to the one member of the given name. */
  lemma NamedMemberChanges<M>(s: State<M>, cmd: Modify<M>, m: M)
    requires Partition(s) && UniqueNames(s) && !cmd.Add? && IsNamed(s, m, cmd.name)
    ensures var t := Apply(s, cmd).0;
      match cmd
      case Remove(_) => Removes(s, t, m)
      case Pause(_) => StatusBecomes(s, t, m, SUSPENDED)
      case Resume(_) => StatusBecomes(s, t, m, ACTIVE)
  {
    ByNameIsHasName(s, cmd.name);
    assert ByName(s.active + s.pending, s.members, cmd.name) == Some(m);
    if cmd.Remove? {
      Draining.BringDownExactly(s, m);
      BringDownOthers(s, m);
    }
  }

  /**
    modify add succeeds exactly when the name is free and the protocol known, and then adds the member it
    describes.
  */
  lemma AddExactly<M>(s: State<M>, c: ProxyConf, n: Newcomer<M>)
    requires Partition(s) && n.m !in s.members
    ensures var (t, ok) := Apply(s, Add(c, n));
      && (ok <==> !HasName(s, c.name) && Supported(c.protocol))
      && (if ok then Applied(s, t, n.m, c, n) else t == s)
  {
    ByNameIsHasName(s, c.name);
    if !HasName(s, c.name) {
      JoinEffect(s, c, n);
    }
  }

  /**
    modify succeeds exactly when the name is free, respectively taken; it changes the member of that name as
    asked, and no other.
  */
  lemma ModifyExactly<M>(s: State<M>, cmd: Modify<M>)
    requires Partition(s) && UniqueNames(s) && (cmd.Add? ==> cmd.n.m !in s.members)
    ensures var (t, ok) := Apply(s, cmd);
      && (!ok ==> t == s)
      && match cmd
         case Add(c, n) => (ok <==> !HasName(s, c.name) && Supported(c.protocol)) && (ok ==> Applied(s, t, n.m, c, n))
         case Remove(name) => (ok <==> HasName(s, name)) && (forall m :: IsNamed(s, m, name) ==> Removes(s, t, m))
         case Pause(name) => (ok <==> HasName(s, name)) && (forall m :: IsNamed(s, m, name) ==>
           StatusBecomes(s, t, m, SUSPENDED))
         case Resume(name) => (ok <==> HasName(s, name)) && (forall m :: IsNamed(s, m, name) ==>
           StatusBecomes(s, t, m, ACTIVE))
  {
    if cmd.Add? {
      AddExactly(s, cmd.c, cmd.n);
    } else {
      TakenExactly(s, cmd);
      forall m | IsNamed(s, m, cmd.name)
        ensures match cmd
          case Remove(_) => Removes(s, Apply(s, cmd).0, m)
          case Pause(_) => StatusBecomes(s, Apply(s, cmd).0, m, SUSPENDED)
          case Resume(_) => StatusBecomes(s, Apply(s, cmd).0, m, ACTIVE)
      {
        NamedMemberChanges(s, cmd, m);
      }
    }
  }

  /** modify keeps the partition and the names unique. */
  lemma ModifyKeepsNames<M>(s: State<M>, cmd: Modify<M>)
    requires Partition(s) && UniqueNames(s) && (cmd.Add? ==> cmd.n.m !in s.members)
    ensures Partition(Apply(s, cmd).0) && UniqueNames(Apply(s, cmd).0)
  {
    var name := if cmd.Add? then cmd.c.name else cmd.name;
    var found := ByName(s.active + s.pending, s.members, name);
    ByNameIsHasName(s, name);
    if found.Some? {
      RemovalKeepsNames(s, found.value);
      StatusKeepsNames(s, found.value, SUSPENDED);
      StatusKeepsNames(s, found.value, ACTIVE);
    } else if cmd.Add? {
      AddKeepsNames(s, cmd.c, cmd.n);
    }
  }

  lemma RemovalKeepsNames<M>(s: State<M>, m: M)
    requires Partition(s) && UniqueNames(s) && m in s.members
    ensures Partition(BringDown(s, m)) && UniqueNames(BringDown(s, m))
  {
    BringDownKeeps(s, m);
    BringDownOthers(s, m);
  }

  lemma StatusKeepsNames<M>(s: State<M>, m: M, st: Status)
    requires Partition(s) && UniqueNames(s) && m in s.members
    ensures Partition(SetStatus(s, m, st)) && UniqueNames(SetStatus(s, m, st))
  {
  }
}
