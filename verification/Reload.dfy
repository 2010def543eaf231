/**
  The reload command: the running clusters are brought in line with a freshly
  read configuration.
*/
module Reload {
  import opened Common
  import opened Sessions
  import opened Membership
  import opened Sweep
  import Text

  /** What the configuration says about one proxy; the address already carries its port. */
  datatype ProxyConf = ProxyConf(name: string, protocol: string, params: Params, status: string)

  /** The object made for a proxy that is not there yet, and what its client reports at the start. */
  datatype Newcomer<M> = Newcomer(m: M, isLocal: bool, wdnt: bool, online: bool, sessions: int)

  /** What the client of a new member object reports at the start. */
  datatype Client = Client(isLocal: bool, up: bool, sessions: int)

  function NewcomerOf<M>(m: M, c: Client): Newcomer<M> {
    Newcomer(m, c.isLocal, false, c.up, c.sessions)
  }

  predicate Supported(protocol: string) {
    protocol == "unix" || protocol == "udp" || protocol == "udp6"
  }

  /** The proxies before the first one with an unsupported protocol. */
  function SupportedPrefix(cs: seq<ProxyConf>): (n: nat)
    ensures n <= |cs|
    ensures forall i :: 0 <= i < n ==> Supported(cs[i].protocol)
    ensures n < |cs| ==> !Supported(cs[n].protocol)
  {
    if cs == [] || !Supported(cs[0].protocol) then 0 else 1 + SupportedPrefix(cs[1..])
  }

  lemma SupportedFrom(cs: seq<ProxyConf>, n: nat)
    requires n < |cs| && Supported(cs[n].protocol)
    ensures SupportedPrefix(cs[n..]) == 1 + SupportedPrefix(cs[n + 1..])
  {
    assert cs[n..][0] == cs[n] && cs[n..][1..] == cs[n + 1..];
  }

  /** The status that a word of the configuration stands for, in any letter case. */
  predicate StatusMeans(st: Status, word: string) {
    && (st == ACTIVE <==> Text.ToUpper(word) == "ACTIVE")
    && (st == DRAINING <==> Text.ToUpper(word) == "DRAINING")
  }

  /** The words that the reader and the operator use. */
  lemma StatusWords()
    ensures StatusFromString("active") == ACTIVE && StatusFromString("ACTIVE") == ACTIVE
    ensures StatusFromString("suspended") == SUSPENDED && StatusFromString("SUSPENDED") == SUSPENDED
    ensures StatusFromString("draining") == DRAINING && StatusFromString("") == SUSPENDED
  {
    assert Text.ToUpper("active") == "ACTIVE" && Text.ToUpper("ACTIVE") == "ACTIVE";
    assert Text.ToUpper("suspended") == "SUSPENDED" && Text.ToUpper("SUSPENDED") == "SUSPENDED";
    assert Text.ToUpper("draining") == "DRAINING" && Text.ToUpper("") == "";
  }

  /** RTPCMStatusFromString: any other word suspends. */
  function StatusFromString(s: string): (st: Status)
    ensures StatusMeans(st, s)
  {
    var u := Text.ToUpper(s);
    if u == "ACTIVE" then ACTIVE else if u == "DRAINING" then DRAINING else SUSPENDED
  }

  /** rtpp_by_name over the members of both lists. */
  function ByName<M(==)>(list: seq<M>, members: map<M, Record>, name: string): Option<M> {
    if list == [] then None
    else if list[0] in members && members[list[0]].name == name then Some(list[0])
    else ByName(list[1..], members, name)
  }

  function NewRecord<M>(c: ProxyConf, n: Newcomer<M>): Record {
    Record(c.name, c.params, StatusFromString(c.status), n.isLocal, n.wdnt, NoCalls, n.online, false, n.sessions,
      0.0, false)
  }

  /** One proxy of the configuration. */
  function ApplyOne<M>(s: State<M>, c: ProxyConf, n: Newcomer<M>): (State<M>, M) {
    match ByName(s.active + s.pending, s.members, c.name)
    case Some(m) => if m in s.members then (Configure(s, m, c.params, StatusFromString(c.status)), m) else (s, m)
    case None => (AddMember(s, n.m, NewRecord(c, n)), n.m)
  }

  /** The proxies of a configuration in order, and the list new_rtpps that is collected. */
  function ApplyAll<M>(s: State<M>, cs: seq<ProxyConf>, ns: seq<Newcomer<M>>): (State<M>, seq<M>)
    requires |cs| == |ns|
    decreases |cs|
  {
    if cs == [] then (s, [])
    else
      var last := |cs| - 1;
      var (t, ms) := ApplyAll(s, cs[..last], ns[..last]);
      var (u, m) := ApplyOne(t, cs[last], ns[last]);
      (u, ms + [m])
  }

  /** The member objects as they would be if each were made for its line of the configuration. */
  function Newcomers<M>(ms: seq<M>, clients: seq<Client>): seq<Newcomer<M>>
    requires |ms| <= |clients|
  {
    seq(|ms|, i requires 0 <= i < |ms| => NewcomerOf(ms[i], clients[i]))
  }

  ghost predicate DistinctNames(cs: seq<ProxyConf>) {
    forall i, j :: 0 <= i < j < |cs| ==> cs[i].name != cs[j].name
  }

  /** The members in the lists have different names. */
  ghost predicate UniqueNames<M>(s: State<M>) {
    forall m, n :: m in s.members && n in s.members && Listed(s, m) && Listed(s, n) ==>
      (s.members[m].name == s.members[n].name ==> m == n)
  }

  /** A member of the lists has this name. */
  ghost predicate HasName<M>(s: State<M>, name: string) {
    exists m :: m in s.members && Listed(s, m) && s.members[m].name == name
  }

  /** Where the configuration names a proxy that is not there, the object made for it is a new one. */
  ghost predicate NewObjects<M>(s: State<M>, cs: seq<ProxyConf>, ns: seq<Newcomer<M>>)
    requires |cs| == |ns|
  {
    && (forall i :: 0 <= i < |ns| && !HasName(s, cs[i].name) ==> ns[i].m !in s.members)
    && (forall i, j ::
          0 <= i < j < |ns| && !HasName(s, cs[i].name) && !HasName(s, cs[j].name) && cs[i].name != cs[j].name ==>
          ns[i].m != ns[j].m)
  }

  ghost predicate HasConfig(r: Record, c: ProxyConf) {
    r.name == c.name && r.params == c.params && StatusMeans(r.status, c.status)
  }

  lemma {:induction false} ByNameFinds<M>(list: seq<M>, members: map<M, Record>, name: string)
    requires forall m :: m in list ==> m in members
    ensures match ByName(list, members, name)
      case Some(m) => m in list && members[m].name == name
      case None => forall m :: m in list ==> members[m].name != name
  {
    if list != [] {
      assert list == [list[0]] + list[1..];
      ByNameFinds(list[1..], members, name);
    }
  }

  lemma ByNameIsHasName<M>(s: State<M>, name: string)
    requires Partition(s)
    ensures var found := ByName(s.active + s.pending, s.members, name);
      && (found.Some? <==> HasName(s, name))
      && (found.Some? ==> found.value in s.members && Listed(s, found.value) && s.members[found.value].name == name)
  {
    var list := s.active + s.pending;
    ByNameFinds(list, s.members, name);
    if HasName(s, name) {
      var m :| m in s.members && Listed(s, m) && s.members[m].name == name;
      assert m in list;
    }
  }

  /** A new member: its client is as it reports, and nothing else has happened to it. */
  predicate StartsAs<M>(r: Record, n: Newcomer<M>) {
    && r.online == n.online && r.isLocal == n.isLocal && r.sessions == n.sessions && r.wdnt == n.wdnt
    && r.calls == CallMaps({}, {}) && !r.down && !r.watched && r.filtered == 0.0
  }

  /** What applying one proxy does. */
  ghost predicate Applied<M>(s: State<M>, t: State<M>, m: M, c: ProxyConf, n: Newcomer<M>) {
    && m in t.members && Listed(t, m) && HasConfig(t.members[m], c)
    && (m in s.members <==> HasName(s, c.name))
    && (if m in s.members
        then Listed(s, m) && s.members[m].name == c.name && t.members.Keys == s.members.Keys
             && t.members[m] == s.members[m].(params := c.params, status := StatusFromString(c.status))
        else m == n.m && t.members.Keys == s.members.Keys + {m} && StartsAs(t.members[m], n))
    && (forall x :: x in s.members && x != m ==> t.members[x] == s.members[x])
    && (forall x :: x in s.members ==> (Listed(t, x) <==> Listed(s, x)))
    && t.active == (if m !in s.members && n.online then s.active + [m] else s.active)
    && t.pending == (if m !in s.members && !n.online then s.pending + [m] else s.pending)
    && t.soft == s.soft && t.relay == s.relay
  }

  lemma ConfigureEffect<M>(s: State<M>, c: ProxyConf, m: M, n: Newcomer<M>)
    requires Partition(s) && m in s.members && Listed(s, m) && s.members[m].name == c.name
    ensures var t := Configure(s, m, c.params, StatusFromString(c.status)); Partition(t) && Applied(s, t, m, c, n)
  {
  }

  lemma JoinEffect<M>(s: State<M>, c: ProxyConf, n: Newcomer<M>)
    requires Partition(s) && n.m !in s.members && !HasName(s, c.name)
    ensures var t := AddMember(s, n.m, NewRecord(c, n)); Partition(t) && Applied(s, t, n.m, c, n)
  {
    AddMemberKeeps(s, n.m, NewRecord(c, n));
  }

  lemma ApplyOneEffect<M>(s: State<M>, c: ProxyConf, n: Newcomer<M>)
    requires Partition(s) && (!HasName(s, c.name) ==> n.m !in s.members)
    ensures var (t, m) := ApplyOne(s, c, n); Partition(t) && Applied(s, t, m, c, n)
  {
    ByNameIsHasName(s, c.name);
    match ByName(s.active + s.pending, s.members, c.name)
    case Some(m) => ConfigureEffect(s, c, m, n);
    case None => JoinEffect(s, c, n);
  }

  lemma AppliedKeepsNames<M>(s: State<M>, t: State<M>, m: M, c: ProxyConf, n: Newcomer<M>)
    requires UniqueNames(s) && Applied(s, t, m, c, n)
    ensures UniqueNames(t)
  {
    if m !in s.members {
      assert forall x :: x in s.members && Listed(s, x) ==> s.members[x].name != c.name;
    }
  }

  /** x carries the configuration c; if it was there before, nothing else about it has changed. */
  ghost predicate Placed<M>(s: State<M>, t: State<M>, x: M, c: ProxyConf, newcomer: M) {
    && x in t.members && Listed(t, x) && HasConfig(t.members[x], c)
    && (x in s.members ==>
          Listed(s, x) && s.members[x].name == c.name
          && t.members[x] == s.members[x].(params := c.params, status := StatusFromString(c.status)))
    && (x !in s.members ==> x == newcomer && t.members[x].calls == NoCalls && !HasName(s, c.name))
  }

  /** Members that the configuration does not name are as before. */
  ghost predicate OthersKept<M>(s: State<M>, t: State<M>, ms: seq<M>) {
    && s.members.Keys <= t.members.Keys
    && (forall x :: x in t.members ==> x in s.members || x in ms)
    && (forall x :: x in s.members && x !in ms ==> t.members[x] == s.members[x])
    && (forall x :: x in s.members ==> (Listed(t, x) <==> Listed(s, x)))
    && t.soft == s.soft && t.relay == s.relay
  }

  ghost predicate AllPlaced<M>(s: State<M>, t: State<M>, ms: seq<M>, cs: seq<ProxyConf>, ns: seq<Newcomer<M>>) {
    && |ms| == |cs| == |ns|
    && forall k :: 0 <= k < |ms| ==> Placed(s, t, ms[k], cs[k], ns[k].m)
  }

  /** A new proxy that is online from the start: it is appended to the online members. */
  ghost predicate JoinsOnline<M>(s: State<M>, cs: seq<ProxyConf>, ns: seq<Newcomer<M>>)
    requires |cs| == |ns|
  {
    exists k :: 0 <= k < |cs| && !HasName(s, cs[k].name) && ns[k].online
  }

  /** The online members of before come first, in their order, and new ones after them. */
  ghost predicate OnlineExtended<M>(s: State<M>, t: State<M>, ms: seq<M>, cs: seq<ProxyConf>, ns: seq<Newcomer<M>>)
    requires |cs| == |ns|
  {
    && s.active <= t.active
    && (forall i :: |s.active| <= i < |t.active| ==> t.active[i] in ms)
    && (|t.active| > |s.active| <==> JoinsOnline(s, cs, ns))
  }

  /** A new proxy that is offline at the start. */
  ghost predicate JoinsOffline<M>(s: State<M>, cs: seq<ProxyConf>, ns: seq<Newcomer<M>>)
    requires |cs| == |ns|
  {
    exists k :: 0 <= k < |cs| && !HasName(s, cs[k].name) && !ns[k].online
  }

  /** How many proxies are configured that are not there. */
  ghost function Absent<M>(s: State<M>, cs: seq<ProxyConf>): nat {
    if cs == [] then 0
    else Absent(s, cs[..|cs| - 1]) + if HasName(s, cs[|cs| - 1].name) then 0 else 1
  }

  /** How far the two lists have grown. */
  ghost predicate ListsGrown<M>(s: State<M>, t: State<M>, cs: seq<ProxyConf>, ns: seq<Newcomer<M>>)
    requires |cs| == |ns|
  {
    && |t.active| + |t.pending| == |s.active| + |s.pending| + Absent(s, cs)
    && (t.pending == [] <==> s.pending == [] && !JoinsOffline(s, cs, ns))
  }

  /** The state in the middle of the proxy loop. */
  ghost predicate PartWay<M>(s: State<M>, t: State<M>, ms: seq<M>, cs: seq<ProxyConf>, ns: seq<Newcomer<M>>) {
    && AllPlaced(s, t, ms, cs, ns) && OthersKept(s, t, ms)
    && OnlineExtended(s, t, ms, cs, ns) && ListsGrown(s, t, cs, ns)
  }

  lemma NameStaysAbsent<M>(s: State<M>, t: State<M>, ms: seq<M>, cs: seq<ProxyConf>, ns: seq<Newcomer<M>>, name: string)
    requires AllPlaced(s, t, ms, cs, ns) && OthersKept(s, t, ms)
    requires forall k :: 0 <= k < |cs| ==> cs[k].name != name
    ensures HasName(t, name) <==> HasName(s, name)
  {
    forall k | 0 <= k < |ms| ensures t.members[ms[k]].name != name {
      assert Placed(s, t, ms[k], cs[k], ns[k].m);
    }
    if HasName(t, name) {
      var x :| x in t.members && Listed(t, x) && t.members[x].name == name;
      assert x !in ms;
      assert x in s.members && Listed(s, x) && s.members[x].name == name;
    }
    if HasName(s, name) {
      var x :| x in s.members && Listed(s, x) && s.members[x].name == name;
      forall k | 0 <= k < |ms| ensures ms[k] != x {
        assert Placed(s, t, ms[k], cs[k], ns[k].m);
      }
      assert x in t.members && Listed(t, x) && t.members[x].name == name;
    }
  }

  lemma PlacedStays<M>(s: State<M>, t: State<M>, u: State<M>, x: M, c: ProxyConf, n: M, m: M, c': ProxyConf,
                       n': Newcomer<M>)
    requires Placed(s, t, x, c, n) && Applied(t, u, m, c', n') && c.name != c'.name
    ensures Placed(s, u, x, c, n) && x != m
  {
    if x == m && m !in t.members {
      assert false;
    }
  }

  lemma PlacedNew<M>(s: State<M>, t: State<M>, u: State<M>, ms: seq<M>, m: M, c: ProxyConf, n: Newcomer<M>)
    requires OthersKept(s, t, ms) && Applied(t, u, m, c, n) && m !in ms
    requires HasName(t, c.name) <==> HasName(s, c.name)
    requires !HasName(s, c.name) ==> n.m !in s.members
    ensures Placed(s, u, m, c, n.m) && (m in s.members <==> m in t.members)
  {
  }

  lemma OthersKeptNext<M>(s: State<M>, t: State<M>, u: State<M>, ms: seq<M>, m: M, c: ProxyConf, n: Newcomer<M>)
    requires OthersKept(s, t, ms) && Applied(t, u, m, c, n)
    ensures OthersKept(s, u, ms + [m])
  {
    forall x | x in u.members ensures x in s.members || x in ms + [m] {
    }
  }

  lemma OnlineExtendedNext<M>(s: State<M>, t: State<M>, u: State<M>, ms: seq<M>, cs: seq<ProxyConf>,
                              ns: seq<Newcomer<M>>,
                              m: M, c: ProxyConf, n: Newcomer<M>)
    requires |cs| == |ns| && OnlineExtended(s, t, ms, cs, ns)
    requires u.active == if !HasName(s, c.name) && n.online then t.active + [m] else t.active
    ensures OnlineExtended(s, u, ms + [m], cs + [c], ns + [n])
  {
    var cs', ns' := cs + [c], ns + [n];
    if JoinsOnline(s, cs, ns) {
      var k :| 0 <= k < |cs| && !HasName(s, cs[k].name) && ns[k].online;
      assert !HasName(s, cs'[k].name) && ns'[k].online;
    }
    if !HasName(s, c.name) && n.online {
      assert !HasName(s, cs'[|cs|].name) && ns'[|cs|].online;
    }
  }

  lemma ListsGrownNext<M>(s: State<M>, t: State<M>, u: State<M>, cs: seq<ProxyConf>, ns: seq<Newcomer<M>>,
                          m: M, c: ProxyConf, n: Newcomer<M>)
    requires |cs| == |ns| && ListsGrown(s, t, cs, ns)
    requires u.active == if !HasName(s, c.name) && n.online then t.active + [m] else t.active
    requires u.pending == if !HasName(s, c.name) && !n.online then t.pending + [m] else t.pending
    ensures ListsGrown(s, u, cs + [c], ns + [n])
  {
    var cs', ns' := cs + [c], ns + [n];
    assert cs'[..|cs|] == cs;
    if JoinsOffline(s, cs, ns) {
      var k :| 0 <= k < |cs| && !HasName(s, cs[k].name) && !ns[k].online;
      assert !HasName(s, cs'[k].name) && !ns'[k].online;
    }
    if !HasName(s, c.name) && !n.online {
      assert !HasName(s, cs'[|cs|].name) && !ns'[|cs|].online;
    }
  }

  lemma AllPlacedNext<M>(s: State<M>, t: State<M>, u: State<M>, ms: seq<M>, cs: seq<ProxyConf>, ns: seq<Newcomer<M>>,
                         m: M, c: ProxyConf, n: Newcomer<M>)
    requires AllPlaced(s, t, ms, cs, ns) && OthersKept(s, t, ms) && Applied(t, u, m, c, n)
    requires forall k :: 0 <= k < |cs| ==> cs[k].name != c.name
    requires HasName(t, c.name) <==> HasName(s, c.name)
    requires !HasName(s, c.name) ==> n.m !in s.members
    ensures AllPlaced(s, u, ms + [m], cs + [c], ns + [n]) && (m in s.members <==> m in t.members)
  {
    forall k | 0 <= k < |ms|
      ensures Placed(s, u, ms[k], cs[k], ns[k].m) && ms[k] != m
    {
      assert Placed(s, t, ms[k], cs[k], ns[k].m);
      PlacedStays(s, t, u, ms[k], cs[k], ns[k].m, m, c, n);
    }
    PlacedNew(s, t, u, ms, m, c, n);
  }

  lemma PartWayNext<M>(s: State<M>, t: State<M>, u: State<M>, ms: seq<M>, cs: seq<ProxyConf>, ns: seq<Newcomer<M>>,
                       m: M, c: ProxyConf, n: Newcomer<M>)
    requires PartWay(s, t, ms, cs, ns) && Applied(t, u, m, c, n)
    requires forall k :: 0 <= k < |cs| ==> cs[k].name != c.name
    requires !HasName(s, c.name) ==> n.m !in s.members
    ensures PartWay(s, u, ms + [m], cs + [c], ns + [n])
  {
    NameStaysAbsent(s, t, ms, cs, ns, c.name);
    AllPlacedNext(s, t, u, ms, cs, ns, m, c, n);
    OthersKeptNext(s, t, u, ms, m, c, n);
    OnlineExtendedNext(s, t, u, ms, cs, ns, m, c, n);
    ListsGrownNext(s, t, u, cs, ns, m, c, n);
  }

  /** The object made for one more absent proxy is in no list yet. */
  lemma StillNew<M>(s: State<M>, t: State<M>, ms: seq<M>, cs: seq<ProxyConf>, ns: seq<Newcomer<M>>, c: ProxyConf,
                    n: Newcomer<M>)
    requires PartWay(s, t, ms, cs, ns) && NewObjects(s, cs + [c], ns + [n])
    requires forall k :: 0 <= k < |cs| ==> cs[k].name != c.name
    ensures !HasName(t, c.name) ==> n.m !in t.members
    ensures !HasName(s, c.name) ==> n.m !in s.members
  {
    var cs', ns' := cs + [c], ns + [n];
    NameStaysAbsent(s, t, ms, cs, ns, c.name);
    assert cs'[|cs|] == c && ns'[|cs|] == n;
    if !HasName(s, c.name) {
      forall k | 0 <= k < |ms| ensures ms[k] != n.m {
        assert Placed(s, t, ms[k], cs[k], ns[k].m);
        assert cs'[k] == cs[k] && ns'[k] == ns[k];
      }
    }
  }

  /** Members of before keep their names, and none of them enters or leaves the lists. */
  ghost predicate Grown<M>(s: State<M>, t: State<M>) {
    && s.members.Keys <= t.members.Keys
    && (forall x :: x in s.members ==> t.members[x].name == s.members[x].name && (Listed(t, x) <==> Listed(s, x)))
  }

  lemma GrownNext<M>(s: State<M>, t: State<M>, u: State<M>, m: M, c: ProxyConf, n: Newcomer<M>)
    requires Grown(s, t) && Applied(t, u, m, c, n)
    ensures Grown(s, u)
  {
  }

  /** The objects that the proxy loop really collects are new ones where the configuration names an absent proxy. */
  lemma NewObjectsNext<M>(s: State<M>, t: State<M>, ms: seq<M>, clients: seq<Client>, cs: seq<ProxyConf>, m: M)
    requires |ms| < |cs| <= |clients| && Grown(s, t)
    requires NewObjects(s, cs[..|ms|], Newcomers(ms, clients))
    requires m in t.members ==> Listed(t, m) && t.members[m].name == cs[|ms|].name
    requires forall i :: 0 <= i < |ms| ==> ms[i] in t.members && t.members[ms[i]].name == cs[i].name
    ensures NewObjects(s, cs[..|ms| + 1], Newcomers(ms + [m], clients))
  {
    var n, c := |ms|, cs[|ms|];
    var ns, ns' := Newcomers(ms, clients), Newcomers(ms + [m], clients);
    assert m in s.members ==> HasName(s, c.name);
    forall i | 0 <= i < n && !HasName(s, cs[i].name) ensures ns'[i].m !in s.members {
      assert cs[..n][i] == cs[i] && ns[i] == ns'[i];
    }
    forall i, j | 0 <= i < j < n && !HasName(s, cs[i].name) && !HasName(s, cs[j].name) && cs[i].name != cs[j].name
      ensures ns'[i].m != ns'[j].m
    {
      assert cs[..n][i] == cs[i] && cs[..n][j] == cs[j];
      assert ns[i] == ns'[i] && ns[j] == ns'[j];
    }
  }

  lemma PlacedNames<M>(t: State<M>, u: State<M>, ms: seq<M>, cs: seq<ProxyConf>, m: M, n: Newcomer<M>)
    requires |ms| < |cs| && Applied(t, u, m, cs[|ms|], n)
    requires forall i :: 0 <= i < |ms| ==> ms[i] in t.members && t.members[ms[i]].name == cs[i].name
    ensures forall i :: 0 <= i <= |ms| ==> (ms + [m])[i] in u.members && u.members[(ms + [m])[i]].name == cs[i].name
  {
  }

  lemma ApplyAllStep<M>(s: State<M>, cs: seq<ProxyConf>, ms: seq<M>, clients: seq<Client>, m: M, u: State<M>)
    requires |ms| < |cs| && |clients| == |cs|
    requires ApplyAll(s, cs[..|ms|], Newcomers(ms, clients)).1 == ms
    requires (u, m) ==
      ApplyOne(ApplyAll(s, cs[..|ms|], Newcomers(ms, clients)).0, cs[|ms|], NewcomerOf(m, clients[|ms|]))
    ensures ApplyAll(s, cs[..|ms| + 1], Newcomers(ms + [m], clients)) == (u, ms + [m])
  {
    var n, ns := |ms|, Newcomers(ms + [m], clients);
    assert cs[..n + 1][..n] == cs[..n] && ns[..n] == Newcomers(ms, clients);
  }

  /**
    The middle of the proxy loop on the objects: t is the state and ms the members collected, for the first
    lines of cs.
  */
  ghost predicate Collected<M>(s: State<M>, t: State<M>, cs: seq<ProxyConf>, ms: seq<M>, clients: seq<Client>) {
    && |ms| <= |cs| == |clients|
    && Partition(t)
    && (t, ms) == ApplyAll(s, cs[..|ms|], Newcomers(ms, clients))
    && Grown(s, t)
    && NewObjects(s, cs[..|ms|], Newcomers(ms, clients))
    && (forall i :: 0 <= i < |ms| ==> ms[i] in t.members && t.members[ms[i]].name == cs[i].name)
  }

  lemma NothingCollected<M>(s: State<M>, cs: seq<ProxyConf>, clients: seq<Client>)
    requires Partition(s) && |cs| == |clients|
    ensures Collected(s, s, cs, [], clients)
  {
  }

  lemma CollectedNext<M>(s: State<M>, t: State<M>, u: State<M>, cs: seq<ProxyConf>, ms: seq<M>, clients: seq<Client>,
                         m: M)
    requires |ms| < |cs| && Collected(s, t, cs, ms, clients)
    requires (u, m) == ApplyOne(t, cs[|ms|], NewcomerOf(m, clients[|ms|]))
    requires !HasName(t, cs[|ms|].name) ==> m !in t.members
    ensures Collected(s, u, cs, ms + [m], clients)
  {
    var c, n := cs[|ms|], NewcomerOf(m, clients[|ms|]);
    ApplyOneEffect(t, c, n);
    assert (u, ms + [m]) == ApplyAll(s, cs[..|ms| + 1], Newcomers(ms + [m], clients)) by {
      ApplyAllStep(s, cs, ms, clients, m, u);
    }
    assert Grown(s, u) by {
      GrownNext(s, t, u, m, c, n);
    }
    assert NewObjects(s, cs[..|ms| + 1], Newcomers(ms + [m], clients)) by {
      NewObjectsNext(s, t, ms, clients, cs, m);
    }
    PlacedNames(t, u, ms, cs, m, n);
  }

  lemma NewObjectsPrefix<M>(s: State<M>, cs: seq<ProxyConf>, ns: seq<Newcomer<M>>, n: nat)
    requires |cs| == |ns| && NewObjects(s, cs, ns) && n <= |cs|
    ensures NewObjects(s, cs[..n], ns[..n])
  {
  }

  /** One more line of the configuration. */
  lemma ApplyAllLast<M>(s: State<M>, cs: seq<ProxyConf>, ns: seq<Newcomer<M>>, c: ProxyConf, n: Newcomer<M>)
    requires |cs| == |ns|
    ensures var (t, ms) := ApplyAll(s, cs, ns);
      var (u, m) := ApplyOne(t, c, n);
      ApplyAll(s, cs + [c], ns + [n]) == (u, ms + [m])
  {
    assert (cs + [c])[..|cs|] == cs && (ns + [n])[..|ns|] == ns;
  }

  /** What holds after the proxy loop. */
  ghost predicate AllApplied<M>(s: State<M>, cs: seq<ProxyConf>, ns: seq<Newcomer<M>>)
    requires |cs| == |ns|
  {
    var (t, ms) := ApplyAll(s, cs, ns);
    Partition(t) && UniqueNames(t) && PartWay(s, t, ms, cs, ns)
  }

  lemma AllAppliedNext<M>(s: State<M>, cs: seq<ProxyConf>, ns: seq<Newcomer<M>>, c: ProxyConf, n: Newcomer<M>)
    requires |cs| == |ns| && AllApplied(s, cs, ns) && NewObjects(s, cs + [c], ns + [n])
    requires forall k :: 0 <= k < |cs| ==> cs[k].name != c.name
    ensures AllApplied(s, cs + [c], ns + [n])
  {
    var (t, ms) := ApplyAll(s, cs, ns);
    ApplyAllLast(s, cs, ns, c, n);
    StillNew(s, t, ms, cs, ns, c, n);
    ApplyOneEffect(t, c, n);
    var (u, m) := ApplyOne(t, c, n);
    AppliedKeepsNames(t, u, m, c, n);
    PartWayNext(s, t, u, ms, cs, ns, m, c, n);
  }

  lemma NothingApplied<M>(s: State<M>)
    requires Partition(s) && UniqueNames(s)
    ensures AllApplied(s, [], [])
  {
  }

  lemma DistinctPrefix(cs: seq<ProxyConf>, n: nat)
    requires DistinctNames(cs) && n < |cs|
    ensures DistinctNames(cs[..n]) && forall k :: 0 <= k < n ==> cs[..n][k].name != cs[n].name
  {
  }

  /** After the proxy loop every configured proxy is in place and the other members are as before. */
  lemma {:induction false} ApplyAllEffect<M>(s: State<M>, cs: seq<ProxyConf>, ns: seq<Newcomer<M>>)
    requires Partition(s) && UniqueNames(s) && |cs| == |ns| && DistinctNames(cs) && NewObjects(s, cs, ns)
    ensures AllApplied(s, cs, ns)
    decreases |cs|
  {
    if cs == [] {
      NothingApplied(s);
    } else {
      var last := |cs| - 1;
      var before, c := cs[..last], cs[last];
      var others, n := ns[..last], ns[last];
      assert cs == before + [c];
      assert ns == others + [n];
      DistinctPrefix(cs, last);
      NewObjectsPrefix(s, cs, ns, last);
      ApplyAllEffect(s, before, others);
      AllAppliedNext(s, before, others, c, n);
    }
  }

  // ------------------------------------------------------- one cluster

  function Kept<M(==)>(ms: seq<M>): set<M> {
    set m | m in ms
  }

  /** The reload of one cluster, when all protocols are supported. */
  function ReloadMembers<M>(room: nat, s: State<M>, cs: seq<ProxyConf>, ns: seq<Newcomer<M>>): (State<M>, seq<M>)
    requires |cs| == |ns|
  {
    var (t, ms) := ApplyAll(s, cs, ns);
    (SweepAll(Shares(t, room), t, Kept(ms)).0, ms)
  }

  /** The cluster is what the configuration says, apart from members that are draining. */
  ghost predicate Reconciled<M>(s: State<M>, u: State<M>, cs: seq<ProxyConf>, ms: seq<M>, ns: seq<Newcomer<M>>) {
    && Partition(u)
    && AllPlaced(s, u, ms, cs, ns)
    && (forall x :: x in u.members && Listed(u, x) && x !in ms ==>
          u.members[x].status == DRAINING && u.members[x].watched)
    && (forall x, k :: x in u.members && Listed(u, x) && 0 <= k < |cs| && u.members[x].name == cs[k].name ==>
          x == ms[k])
    && (forall x :: x in s.members && Listed(s, x) && x !in ms ==> BroughtDown(u, x))
  }

  ghost predicate NamedIn(r: Record, cs: seq<ProxyConf>) {
    exists k :: 0 <= k < |cs| && cs[k].name == r.name
  }

  /** The online members that the last loop removes at once: idle ones that the configuration does not name. */
  ghost function IdleUnwanted<M>(s: State<M>, cs: seq<ProxyConf>): set<M> {
    set m | m in s.active && m in s.members && !NamedIn(s.members[m], cs)
      && (s.members[m].calls.young == {} || s.members[m].sessions <= 0)
  }

  /**
    The last loop misses m: an odd number of idle unwanted members stands right before it, and it will not be
    the last online member.
  */
  ghost predicate Missed<M>(s: State<M>, cs: seq<ProxyConf>, ns: seq<Newcomer<M>>, m: M)
    requires |cs| == |ns|
  {
    exists i ::
      && 0 <= i < |s.active| && s.active[i] == m
      && (i + 1 < |s.active| || JoinsOnline(s, cs, ns))
      && HitsBefore(s.active, IdleUnwanted(s, cs), i) % 2 == 1
  }

  /** Some member that should go stays as it is. */
  ghost predicate LeavesUnwanted<M>(s: State<M>, cs: seq<ProxyConf>, ns: seq<Newcomer<M>>)
    requires |cs| == |ns|
  {
    exists m ::
      m in s.members && !NamedIn(s.members[m], cs) && !AlreadyDraining(s.members[m]) && Missed(s, cs, ns, m)
  }

  lemma {:induction false} HitsBeforePrefix<M>(u: seq<M>, v: seq<M>, h: set<M>, k: set<M>, i: nat)
    requires i <= |u| && u <= v && forall x :: x in u ==> (x in h <==> x in k)
    ensures HitsBefore(u, h, i) == HitsBefore(v, k, i)
  {
    if i > 0 {
      HitsBeforePrefix(u, v, h, k, i - 1);
    }
  }

  /** A member of before is kept exactly when the configuration has its name. */
  lemma KeptExactly<M>(s: State<M>, t: State<M>, ms: seq<M>, cs: seq<ProxyConf>, ns: seq<Newcomer<M>>, x: M)
    requires AllPlaced(s, t, ms, cs, ns) && OthersKept(s, t, ms) && UniqueNames(t)
    requires x in s.members && Listed(s, x)
    ensures x in ms <==> NamedIn(s.members[x], cs)
  {
    if x in ms {
      var k :| 0 <= k < |ms| && ms[k] == x;
      assert Placed(s, t, ms[k], cs[k], ns[k].m);
    }
    if NamedIn(s.members[x], cs) {
      var k :| 0 <= k < |cs| && cs[k].name == s.members[x].name;
      assert Placed(s, t, ms[k], cs[k], ns[k].m);
      assert t.members[x].name == cs[k].name;
    }
  }

  /** The condition after the proxy loop is the one before it. */
  lemma SkippedExactly<M>(s: State<M>, t: State<M>, ms: seq<M>, cs: seq<ProxyConf>, ns: seq<Newcomer<M>>, x: M)
    requires Partition(s) && Partition(t) && UniqueNames(t) && PartWay(s, t, ms, cs, ns)
    requires x in s.members && Listed(s, x) && x !in ms
    ensures Skipped(t, Kept(ms), x) <==> Missed(s, cs, ns, x)
  {
    var keep := Kept(ms);
    var h, k := IdleUnwanted(s, cs), Hits(t, keep);
    forall m | m in s.active ensures m in h <==> m in k {
      KeptExactly(s, t, ms, cs, ns, m);
      assert m in t.active;
    }
    forall i | 0 <= i < |s.active| ensures HitsBefore(s.active, h, i) == HitsBefore(t.active, k, i) {
      HitsBeforePrefix(s.active, t.active, h, k, i);
    }
    if Skipped(t, keep, x) {
      var i :| 0 <= i < |t.active| - 1 && t.active[i] == x && HitsBefore(t.active, k, i) % 2 == 1;
      assert i < |s.active| && s.active[i] == x;
    }
    if Missed(s, cs, ns, x) {
      var i :| 0 <= i < |s.active| && s.active[i] == x && (i + 1 < |s.active| || JoinsOnline(s, cs, ns))
        && HitsBefore(s.active, h, i) % 2 == 1;
      assert i < |t.active| - 1 && t.active[i] == x;
    }
  }

  lemma SweptMembers<M>(shared: bool, s: State<M>, t: State<M>, ms: seq<M>, cs: seq<ProxyConf>, ns: seq<Newcomer<M>>)
    requires Partition(t) && AllPlaced(s, t, ms, cs, ns)
    ensures var u := SweepAll(shared, t, Kept(ms)).0;
      Partition(u) && AllPlaced(s, u, ms, cs, ns)
  {
    var keep := Kept(ms);
    SweepEffect(shared, t, t.active + t.pending, 0, keep);
    var u := SweepAll(shared, t, keep).0;
    forall k | 0 <= k < |ms| ensures Placed(s, u, ms[k], cs[k], ns[k].m) {
      assert Placed(s, t, ms[k], cs[k], ns[k].m);
      assert ms[k] in keep;
    }
  }

  /** A member with a configured name is the one the configuration placed. */
  lemma SweptNames<M>(shared: bool, s: State<M>, t: State<M>, ms: seq<M>, cs: seq<ProxyConf>, ns: seq<Newcomer<M>>,
                      x: M, k: nat)
    requires Partition(t) && UniqueNames(t) && AllPlaced(s, t, ms, cs, ns) && k < |cs|
    requires var u := SweepAll(shared, t, Kept(ms)).0; x in u.members && Listed(u, x) && u.members[x].name == cs[k].name
    ensures x == ms[k]
  {
    SweepEffect(shared, t, t.active + t.pending, 0, Kept(ms));
    assert Placed(s, t, ms[k], cs[k], ns[k].m);
    assert Listed(t, x) && t.members[x].name == t.members[ms[k]].name;
  }

  /** A member that is still listed at the end was listed before, and is draining if it was brought down. */
  lemma SweptListed<M>(shared: bool, s: State<M>, t: State<M>, ms: seq<M>, x: M)
    requires Partition(t) && OthersKept(s, t, ms) && x !in ms
    ensures var u := SweepAll(shared, t, Kept(ms)).0;
      x in u.members && Listed(u, x) ==>
        x in s.members && Listed(s, x) && (BroughtDown(u, x) ==> AlreadyDraining(u.members[x]))
  {
    SweepEffect(shared, t, t.active + t.pending, 0, Kept(ms));
  }

  lemma ReconciledByBroughtDown<M>(shared: bool, s: State<M>, t: State<M>, ms: seq<M>, cs: seq<ProxyConf>,
                                   ns: seq<Newcomer<M>>)
    requires Partition(t) && UniqueNames(t) && PartWay(s, t, ms, cs, ns) && AllBroughtDown(shared, t, Kept(ms))
    ensures Reconciled(s, SweepAll(shared, t, Kept(ms)).0, cs, ms, ns)
  {
    var u := SweepAll(shared, t, Kept(ms)).0;
    SweptMembers(shared, s, t, ms, cs, ns);
    forall x, k | x in u.members && Listed(u, x) && 0 <= k < |cs| && u.members[x].name == cs[k].name
      ensures x == ms[k]
    {
      SweptNames(shared, s, t, ms, cs, ns, x, k);
    }
    forall x | x in u.members && Listed(u, x) && x !in ms ensures AlreadyDraining(u.members[x]) {
      SweptListed(shared, s, t, ms, x);
      assert Listed(t, x) && x !in Kept(ms);
    }
    forall x | x in s.members && Listed(s, x) && x !in ms ensures BroughtDown(u, x) {
      assert Listed(t, x) && x !in Kept(ms);
    }
  }

  /** Apart from the members to be brought down, the sweep always leaves what the configuration says. */
  lemma SweepReconciles<M>(shared: bool, s: State<M>, t: State<M>, ms: seq<M>, cs: seq<ProxyConf>, ns: seq<Newcomer<M>>)
    requires Partition(t) && UniqueNames(t) && PartWay(s, t, ms, cs, ns)
    ensures Reconciled(s, SweepAll(shared, t, Kept(ms)).0, cs, ms, ns) <==> AllBroughtDown(shared, t, Kept(ms))
  {
    var u := SweepAll(shared, t, Kept(ms)).0;
    if AllBroughtDown(shared, t, Kept(ms)) {
      ReconciledByBroughtDown(shared, s, t, ms, cs, ns);
    }
    if Reconciled(s, u, cs, ms, ns) {
      forall x | x in t.members && Listed(t, x) && x !in Kept(ms) ensures BroughtDown(u, x) {
        assert x in s.members && Listed(s, x) && x !in ms;
      }
    }
  }

  lemma DownExactly<M>(s: State<M>, t: State<M>, ms: seq<M>, cs: seq<ProxyConf>, ns: seq<Newcomer<M>>, x: M)
    requires Partition(s) && Partition(t) && UniqueNames(t) && PartWay(s, t, ms, cs, ns)
    requires x in s.members && Listed(s, x) && !NamedIn(s.members[x], cs)
    ensures x !in Kept(ms) && Listed(t, x)
    ensures BroughtDown(SweepAll(true, t, Kept(ms)).0, x) <==> !Missed(s, cs, ns, x) || AlreadyDraining(s.members[x])
  {
    KeptExactly(s, t, ms, cs, ns, x);
    SkippedExactly(s, t, ms, cs, ns, x);
    SharedSweepExactly(t, Kept(ms), x);
  }

  /** All unwanted members are brought down exactly when none is missed, and always on a snapshot. */
  lemma BroughtDownExactly<M>(shared: bool, s: State<M>, t: State<M>, ms: seq<M>, cs: seq<ProxyConf>,
                              ns: seq<Newcomer<M>>)
    requires Partition(s) && Partition(t) && UniqueNames(t) && PartWay(s, t, ms, cs, ns)
    ensures AllBroughtDown(shared, t, Kept(ms)) <==> !shared || !LeavesUnwanted(s, cs, ns)
  {
    SnapshotSweepComplete(t, Kept(ms));
    if !LeavesUnwanted(s, cs, ns) {
      forall x | x in t.members && Listed(t, x) && x !in Kept(ms)
        ensures BroughtDown(SweepAll(true, t, Kept(ms)).0, x) {
        assert x in s.members && Listed(s, x) && x !in ms;
        KeptExactly(s, t, ms, cs, ns, x);
        DownExactly(s, t, ms, cs, ns, x);
      }
    } else {
      var x :| x in s.members && !NamedIn(s.members[x], cs) && !AlreadyDraining(s.members[x]) && Missed(s, cs, ns, x);
      DownExactly(s, t, ms, cs, ns, x);
    }
  }

  /** Whether the array will be shared when the last loop runs, from what is there before. */
  ghost predicate WillShare<M>(room: nat, s: State<M>, cs: seq<ProxyConf>, ns: seq<Newcomer<M>>)
    requires |cs| == |ns|
  {
    (s.pending == [] && !JoinsOffline(s, cs, ns)) || |s.active| + |s.pending| + Absent(s, cs) <= room
  }

  lemma SharesExactly<M>(room: nat, s: State<M>, t: State<M>, ms: seq<M>, cs: seq<ProxyConf>, ns: seq<Newcomer<M>>)
    requires PartWay(s, t, ms, cs, ns)
    ensures Shares(t, room) <==> WillShare(room, s, cs, ns)
  {
  }

  /**
    Every configured proxy is present once with its parameters and status, survivors keep identity and
    calls, and the rest is removed or draining, exactly when the last loop reads a snapshot or misses no
    unwanted member. Room is the capacity of active when that loop starts.
  */
  lemma ReloadReconcilesExactly<M>(room: nat, s: State<M>, cs: seq<ProxyConf>, ns: seq<Newcomer<M>>)
    requires Partition(s) && UniqueNames(s) && |cs| == |ns| && DistinctNames(cs) && NewObjects(s, cs, ns)
    ensures var (u, ms) := ReloadMembers(room, s, cs, ns);
      Reconciled(s, u, cs, ms, ns) <==> !WillShare(room, s, cs, ns) || !LeavesUnwanted(s, cs, ns)
  {
    ApplyAllEffect(s, cs, ns);
    var (t, ms) := ApplyAll(s, cs, ns);
    SharesExactly(room, s, t, ms, cs, ns);
    SweepReconciles(Shares(t, room), s, t, ms, cs, ns);
    BroughtDownExactly(Shares(t, room), s, t, ms, cs, ns);
  }
}
