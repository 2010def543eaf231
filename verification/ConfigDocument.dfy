/**
  The token handlers give every document its meaning: the state after each
  part of a document is written down, with the context stack of that place.
*/
module ConfigDocument {
  import opened Common
  import opened Config
  import opened ConfigTree

  const ROOT := ["rtp_cluster_config"]
  const CLUSTER := ["rtp_cluster_config", "rtp_cluster"]
  const PROXY := ["rtp_cluster_config", "rtp_cluster", "rtpproxy"]
  const NOTIFY := ["rtp_cluster_config", "rtp_cluster", "dnconfig"]

  function AtRoot(cs: seq<ClusterConfig>, element: string): GoodHandler {
    Handler(cs, None, None, None, element, ROOT)
  }

  function AtCluster(cs: seq<ClusterConfig>, c: ClusterConfig, element: string): GoodHandler {
    Handler(cs + [c], Some(|cs|), None, None, element, CLUSTER)
  }

  function AtNotify(cs: seq<ClusterConfig>, c: ClusterConfig, d: DnConfig, element: string): GoodHandler {
    Handler(cs + [c.(dn := Some(d))], Some(|cs|), None, Some(|cs|), element, NOTIFY)
  }

  function AtProxy(cs: seq<ClusterConfig>, c: ClusterConfig, p: ProxyConfig, element: string): GoodHandler {
    Handler(cs + [c.(proxies := c.proxies + [p])], Some(|cs|), Some(Position(|cs|, |c.proxies|)), None, element, PROXY)
  }

  predicate PlainName(name: string) {
    !IsSection(name) && name != "rtp_cluster_config" && name != "capacity_limit"
  }

  lemma ReadThree(h: GoodHandler, a: Token, b: Token, c: Token)
    requires h.ctx != []
    ensures ReadDeep(h, [a, c]) ==
      match Feed(h, a) case None => None case Some(h1) => ReadDeep(h1, [c])
    ensures ReadDeep(h, [a, b, c]) ==
      match Feed(h, a) case None => None case Some(h1) => ReadDeep(h1, [b, c])
    ensures ReadDeep(h, [c]) == match Feed(h, c) case None => None case Some(h1) => ReadDeep(h1, [])
  {
    assert [a, c][1..] == [c] && [a, b, c][1..] == [b, c] && [c][1..] == [];
  }

  /** A leaf: its text, if any, is given to Characters with the leaf as current element. */
  lemma LeafRead(h: GoodHandler, name: string, text: string)
    requires h.ctx != [] && PlainName(name)
    requires text != "" ==> Characters(h.(element := name), text).Some?
    ensures ReadDeep(h, LeafTokens(name, text)) ==
      Some((if text == "" then h else Characters(h.(element := name), text).value).(element := ""))
  {
    var h1: GoodHandler := h.(element := name);
    assert StartElement(h, name, []) == Some(h1);
    ReadThree(h, Open(name, []), Chars(text), Shut(name));
    if text == "" {
      assert LeafTokens(name, text) == [Open(name, []), Shut(name)];
      ReadThree(h1, Shut(name), Chars(text), Shut(name));
    } else {
      assert LeafTokens(name, text) == [Open(name, []), Chars(text), Shut(name)];
      ReadThree(h1, Chars(text), Chars(text), Shut(name));
      FeedElement(h1, Chars(text));
      var h2 := Characters(h1, text).value;
      CharactersKeepContext(h1, text);
      ReadThree(h2, Chars(text), Chars(text), Shut(name));
    }
  }

  lemma CharactersKeepContext(h: GoodHandler, text: string)
    requires Characters(h, text).Some?
    ensures Characters(h, text).value.ctx == h.ctx
  {
  }

  // --------------------------------------------------------------- proxies

  function ProxyText(all: seq<ProxyConfig>, p: ProxyConfig, name: string, text: string): ProxyConfig {
    if text == "" then p else ProxyLeaf(all + [p], p, name, text)
  }

  function ProxyTexts(all: seq<ProxyConfig>, p: ProxyConfig, ls: seq<(string, string)>): ProxyConfig
    decreases |ls|
  {
    if ls == [] then p else ProxyTexts(all, ProxyText(all, p, ls[0].0, ls[0].1), ls[1..])
  }

  lemma ProxyLeafRead(cs: seq<ClusterConfig>, c: ClusterConfig, p: ProxyConfig, e: string, name: string, text: string)
    requires IsProxyLeaf(name)
    ensures ReadDeep(AtProxy(cs, c, p, e), LeafTokens(name, text)) ==
      Some(AtProxy(cs, c, ProxyText(c.proxies, p, name, text), ""))
  {
    var h := AtProxy(cs, c, p, e);
    var h1: GoodHandler := h.(element := name);
    var all := c.proxies + [p];
    assert h1.config[h1.cluster.value].proxies == all;
    if text != "" {
      var q := ProxyLeaf(all, p, name, text);
      assert all[|c.proxies| := q] == c.proxies + [q];
      assert (cs + [c.(proxies := all)])[|cs| := c.(proxies := c.proxies + [q])] ==
        cs + [c.(proxies := c.proxies + [q])];
      assert all[|c.proxies| := p] == all;
      assert Characters(h1, text) == Some(AtProxy(cs, c, q, name));
    }
    LeafRead(h, name, text);
  }

  predicate AllProxyLeaves(ls: seq<(string, string)>) {
    forall i :: 0 <= i < |ls| ==> IsProxyLeaf(ls[i].0)
  }

  lemma {:induction false} ProxyLeavesRead(cs: seq<ClusterConfig>, c: ClusterConfig, p: ProxyConfig, e: string,
                                           ls: seq<(string, string)>)
    requires AllProxyLeaves(ls)
    ensures ReadDeep(AtProxy(cs, c, p, e), LeavesTokens(ls)) ==
      Some(AtProxy(cs, c, ProxyTexts(c.proxies, p, ls), if ls == [] then e else ""))
    decreases |ls|
  {
    if ls != [] {
      var q := ProxyText(c.proxies, p, ls[0].0, ls[0].1);
      ProxyLeafRead(cs, c, p, e, ls[0].0, ls[0].1);
      DeepConcat(AtProxy(cs, c, p, e), LeafTokens(ls[0].0, ls[0].1), LeavesTokens(ls[1..]));
      ProxyLeavesRead(cs, c, q, "", ls[1..]);
    }
  }

  lemma {:induction false} TextsConcat(all: seq<ProxyConfig>, p: ProxyConfig, a: seq<(string, string)>,
                                       b: seq<(string, string)>)
    ensures ProxyTexts(all, p, a + b) == ProxyTexts(all, ProxyTexts(all, p, a), b)
    decreases |a|
  {
    if a == [] {
      assert a + b == b;
    } else {
      assert (a + b)[1..] == a[1..] + b;
      TextsConcat(all, ProxyText(all, p, a[0].0, a[0].1), a[1..], b);
    }
  }

  lemma TextsOne(all: seq<ProxyConfig>, p: ProxyConfig, l: (string, string), rest: seq<(string, string)>)
    ensures ProxyTexts(all, p, [l] + rest) == ProxyTexts(all, ProxyText(all, p, l.0, l.1), rest)
  {
    assert ([l] + rest)[1..] == rest;
  }

  lemma OptionalText(all: seq<ProxyConfig>, p: ProxyConfig, name: string, leaf: Option<string>)
    ensures ProxyTexts(all, p, Optional(name, leaf)) == ProxyText(all, p, name, TextOf(leaf))
  {
    if leaf.Some? {
      assert Optional(name, leaf) == [(name, leaf.value)] + [];
      TextsOne(all, p, (name, leaf.value), []);
    }
  }

  lemma NameText(all: seq<ProxyConfig>, text: string)
    ensures ProxyText(all, NewProxy, "name", text) == NewProxy.(name := if TakenProxy(all, text) then "" else text)
  {
    assert (all + [NewProxy])[|all|].name == "";
    if TakenProxy(all, text) {
      var i :| 0 <= i < |all| && all[i].name == text;
      assert (all + [NewProxy])[i].name == text;
    }
  }

  lemma WordTexts(all: seq<ProxyConfig>, p: ProxyConfig, text: string)
    ensures ProxyText(all, p, "protocol", text) == p.(protocol := LowerOr(text, p.protocol))
    ensures ProxyText(all, p, "address", text) == p.(address := OrElse(text, p.address))
    ensures ProxyText(all, p, "status", text) == p.(status := LowerOr(text, p.status))
  {
  }

  lemma NumberTexts(all: seq<ProxyConfig>, p: ProxyConfig, text: string)
    ensures ProxyText(all, p, "weight", text) == p.(weight := NumberOr(text, p.weight))
    ensures ProxyText(all, p, "capacity", text) == p.(capacity := NumberOr(text, p.capacity))
  {
  }

  lemma TextsTwo(all: seq<ProxyConfig>, p: ProxyConfig, a: (string, string), b: (string, string),
                 rest: seq<(string, string)>)
    ensures ProxyTexts(all, p, [a, b] + rest) ==
      ProxyTexts(all, ProxyText(all, ProxyText(all, p, a.0, a.1), b.0, b.1), rest)
  {
    assert [a, b] + rest == [a] + ([b] + rest);
    TextsOne(all, p, a, [b] + rest);
    TextsOne(all, ProxyText(all, p, a.0, a.1), b, rest);
  }

  lemma RequiredMeaning(all: seq<ProxyConfig>, e: ProxyElem)
    ensures ProxyTexts(all, NewProxy, RequiredLeaves(e)) == ProxyMeaning(all, e).(wan := "", lan := "", cmdOut := "")
  {
    var l := RequiredLeaves(e);
    NameText(all, e.name);
    var p1 := ProxyText(all, NewProxy, "name", e.name);
    WordTexts(all, p1, e.protocol);
    var p2 := ProxyText(all, p1, "protocol", e.protocol);
    WordTexts(all, p2, e.address);
    var p3 := ProxyText(all, p2, "address", e.address);
    NumberTexts(all, p3, e.weight);
    var p4 := ProxyText(all, p3, "weight", e.weight);
    NumberTexts(all, p4, e.capacity);
    var p5 := ProxyText(all, p4, "capacity", e.capacity);
    WordTexts(all, p5, e.status);
    assert l == [l[0], l[1]] + ([l[2], l[3]] + ([l[4], l[5]] + []));
    TextsTwo(all, NewProxy, l[0], l[1], [l[2], l[3]] + ([l[4], l[5]] + []));
    TextsTwo(all, p2, l[2], l[3], [l[4], l[5]] + []);
    TextsTwo(all, p4, l[4], l[5], []);
  }

  lemma LeavesMeaning(all: seq<ProxyConfig>, e: ProxyElem)
    ensures ProxyTexts(all, NewProxy, RequiredLeaves(e) + OptionalLeaves(e)) == ProxyMeaning(all, e)
  {
    RequiredMeaning(all, e);
    TextsConcat(all, NewProxy, RequiredLeaves(e), OptionalLeaves(e));
    var p := ProxyTexts(all, NewProxy, RequiredLeaves(e));
    var w, l, c :=
      Optional("wan_address", e.wan), Optional("lan_address", e.lan), Optional("cmd_out_address", e.cmdOut);
    TextsConcat(all, p, w + l, c);
    TextsConcat(all, p, w, l);
    OptionalText(all, p, "wan_address", e.wan);
    var p1 := ProxyTexts(all, p, w);
    OptionalText(all, p1, "lan_address", e.lan);
    var p2 := ProxyTexts(all, p1, l);
    OptionalText(all, p2, "cmd_out_address", e.cmdOut);
  }

  lemma ProxyOpens(cs: seq<ClusterConfig>, c: ClusterConfig, e: string)
    ensures ReadDeep(AtCluster(cs, c, e), [Open("rtpproxy", [])]) == Some(AtProxy(cs, c, NewProxy, "rtpproxy"))
  {
    var h := AtCluster(cs, c, e);
    assert (cs + [c])[|cs| := c.(proxies := c.proxies + [NewProxy])] == cs + [c.(proxies := c.proxies + [NewProxy])];
    assert CLUSTER + ["rtpproxy"] == PROXY;
    ReadThree(h, Open("rtpproxy", []), Open("rtpproxy", []), Open("rtpproxy", []));
  }

  lemma ProxyShuts(cs: seq<ClusterConfig>, c: ClusterConfig, p: ProxyConfig, e: string)
    ensures ReadDeep(AtProxy(cs, c, p, e), [Shut("rtpproxy")]) == Some(AtCluster(cs, c.(proxies := c.proxies + [p]), e))
  {
    var h := AtProxy(cs, c, p, e);
    assert PROXY[..2] == CLUSTER;
    ReadThree(h, Shut("rtpproxy"), Shut("rtpproxy"), Shut("rtpproxy"));
  }

  lemma ProxyRead(cs: seq<ClusterConfig>, c: ClusterConfig, e: string, x: ProxyElem)
    ensures ReadDeep(AtCluster(cs, c, e), ProxyTokens(x)) ==
      Some(AtCluster(cs, c.(proxies := c.proxies + [ProxyMeaning(c.proxies, x)]), ""))
  {
    var ls := RequiredLeaves(x) + OptionalLeaves(x);
    var m := ProxyMeaning(c.proxies, x);
    var h := AtCluster(cs, c, e);
    var opening: seq<Token> := [Open("rtpproxy", [])];
    ProxyOpens(cs, c, e);
    DeepConcat(h, opening, LeavesTokens(ls));
    ProxyLeavesRead(cs, c, NewProxy, "rtpproxy", ls);
    LeavesMeaning(c.proxies, x);
    DeepConcat(h, opening + LeavesTokens(ls), [Shut("rtpproxy")]);
    ProxyShuts(cs, c, m, "");
  }

  lemma {:induction false} ProxiesRead(cs: seq<ClusterConfig>, c: ClusterConfig, es: seq<ProxyElem>)
    requires c.proxies == []
    ensures ReadDeep(AtCluster(cs, c, ""), ProxiesTokens(es)) ==
      Some(AtCluster(cs, c.(proxies := ProxyMeanings(es)), ""))
    decreases |es|
  {
    if es != [] {
      var before, x := es[..|es| - 1], es[|es| - 1];
      ProxiesRead(cs, c, before);
      DeepConcat(AtCluster(cs, c, ""), ProxiesTokens(before), ProxyTokens(x));
      ProxyRead(cs, c.(proxies := ProxyMeanings(before)), "", x);
    }
  }

  // -------------------------------------------------------------- clusters

  function ClusterText(cs: seq<ClusterConfig>, c: ClusterConfig, name: string, text: string): ClusterConfig {
    if text == "" then c else ClusterLeaf(cs + [c], c, name, text)
  }

  lemma ClusterLeafRead(cs: seq<ClusterConfig>, c: ClusterConfig, e: string, name: string, text: string)
    requires IsClusterLeaf(name)
    ensures ReadDeep(AtCluster(cs, c, e), LeafTokens(name, text)) ==
      Some(AtCluster(cs, ClusterText(cs, c, name, text), ""))
  {
    var h := AtCluster(cs, c, e);
    var h1: GoodHandler := h.(element := name);
    if text != "" {
      var d := ClusterLeaf(cs + [c], c, name, text);
      assert (cs + [c])[|cs| := d] == cs + [d];
      assert (cs + [c])[|cs| := c] == cs + [c];
      assert Characters(h1, text) == Some(AtCluster(cs, d, name));
    }
    LeafRead(h, name, text);
  }

  lemma ClusterNameText(cs: seq<ClusterConfig>, text: string)
    ensures ClusterText(cs, NewCluster, "name", text) == NewCluster.(name := if TakenCluster(cs, text) then ""
      else text)
  {
    assert (cs + [NewCluster])[|cs|].name == "";
    if TakenCluster(cs, text) {
      var i :| 0 <= i < |cs| && cs[i].name == text;
      assert (cs + [NewCluster])[i].name == text;
    }
  }

  lemma ClusterWordTexts(cs: seq<ClusterConfig>, c: ClusterConfig, text: string)
    ensures ClusterText(cs, c, "protocol", text) == c.(protocol := LowerOr(text, c.protocol))
    ensures ClusterText(cs, c, "address", text) == c.(address := OrElse(text, c.address))
  {
  }

  /** A cluster whose sections are still to come. */
  function HeadMeaning(cs: seq<ClusterConfig>, e: ClusterElem): ClusterConfig {
    ClusterMeaning(cs, e).(proxies := [], dn := None, soft := false)
  }

  lemma HeadRead(cs: seq<ClusterConfig>, e: ClusterElem, element: string)
    ensures ReadDeep(AtCluster(cs, NewCluster, element), HeadTokens(e)) == Some(AtCluster(cs, HeadMeaning(cs, e), ""))
  {
    var c1 := ClusterText(cs, NewCluster, "name", e.name);
    var c2 := ClusterText(cs, c1, "protocol", e.protocol);
    ClusterNameText(cs, e.name);
    ClusterWordTexts(cs, c1, e.protocol);
    ClusterWordTexts(cs, c2, e.address);
    ClusterLeafRead(cs, NewCluster, element, "name", e.name);
    ClusterLeafRead(cs, c1, "", "protocol", e.protocol);
    ClusterLeafRead(cs, c2, "", "address", e.address);
    DeepConcat(AtCluster(cs, NewCluster, element), LeafTokens("name", e.name),
               LeafTokens("protocol", e.protocol) + LeafTokens("address", e.address));
    DeepConcat(AtCluster(cs, c1, ""), LeafTokens("protocol", e.protocol), LeafTokens("address", e.address));
  }

  lemma DnLeafRead(cs: seq<ClusterConfig>, c: ClusterConfig, d: DnConfig, e: string, name: string, text: string)
    requires IsDnLeaf(name) && (text == "" ==> DnLeaf(d, name, text) == d)
    ensures ReadDeep(AtNotify(cs, c, d, e), LeafTokens(name, text)) == Some(AtNotify(cs, c, DnLeaf(d, name, text), ""))
  {
    var h := AtNotify(cs, c, d, e);
    var h1: GoodHandler := h.(element := name);
    if text != "" {
      var x := c.(dn := Some(DnLeaf(d, name, text)));
      assert (cs + [c.(dn := Some(d))])[|cs| := x] == cs + [x];
      assert Characters(h1, text) == Some(AtNotify(cs, c, DnLeaf(d, name, text), name));
    }
    LeafRead(h, name, text);
  }

  lemma DnOpens(cs: seq<ClusterConfig>, c: ClusterConfig, e: string)
    ensures ReadDeep(AtCluster(cs, c, e), [Open("disconnect_notify", [])]) ==
      Some(AtNotify(cs, c, DnConfig("", ""), "disconnect_notify"))
  {
    var t := Open("disconnect_notify", []);
    assert (cs + [c])[|cs| := c.(dn := Some(DnConfig("", "")))] == cs + [c.(dn := Some(DnConfig("", "")))];
    assert CLUSTER + ["dnconfig"] == NOTIFY;
    ReadThree(AtCluster(cs, c, e), t, t, t);
  }

  lemma DnShuts(cs: seq<ClusterConfig>, c: ClusterConfig, d: DnConfig, e: string)
    ensures ReadDeep(AtNotify(cs, c, d, e), [Shut("disconnect_notify")]) == Some(AtCluster(cs, c.(dn := Some(d)), e))
  {
    var t := Shut("disconnect_notify");
    assert NOTIFY[..2] == CLUSTER;
    ReadThree(AtNotify(cs, c, d, e), t, t, t);
  }

  function DnMeaning(dn: Option<DnElem>): Option<DnConfig> {
    match dn case None => None case Some(d) => Some(DnConfig(d.inbound, d.prefix))
  }

  lemma DnRead(cs: seq<ClusterConfig>, c: ClusterConfig, dn: Option<DnElem>)
    requires c.dn == None
    ensures ReadDeep(AtCluster(cs, c, ""), DnTokens(dn)) == Some(AtCluster(cs, c.(dn := DnMeaning(dn)), ""))
  {
    if dn.Some? {
      var d := dn.value;
      var a, b := LeafTokens("inbound_address", d.inbound), LeafTokens("dest_socket_prefix", d.prefix);
      var h := AtCluster(cs, c, "");
      var opening: seq<Token> := [Open("disconnect_notify", [])];
      DnOpens(cs, c, "");
      DnLeafRead(cs, c, DnConfig("", ""), "disconnect_notify", "inbound_address", d.inbound);
      DnLeafRead(cs, c, DnConfig(d.inbound, ""), "", "dest_socket_prefix", d.prefix);
      DeepConcat(AtNotify(cs, c, DnConfig("", ""), "disconnect_notify"), a, b);
      DeepConcat(h, opening, a + b);
      DeepConcat(h, opening + (a + b), [Shut("disconnect_notify")]);
      DnShuts(cs, c, DnConfig(d.inbound, d.prefix), "");
    }
  }

  lemma LimitRead(cs: seq<ClusterConfig>, c: ClusterConfig, limit: Option<Option<string>>)
    requires !c.soft
    ensures ReadDeep(AtCluster(cs, c, ""), LimitTokens(limit)) ==
      Some(AtCluster(cs, c.(soft := limit == Some(Some("soft"))), ""))
  {
    if limit.Some? {
      var t := limit.value;
      var attrs := match t case None => [] case Some(v) => [("type", v)];
      var d := c.(soft := limit == Some(Some("soft")));
      var h := AtCluster(cs, c, "");
      assert (cs + [c])[|cs| := d] == cs + [d];
      assert (cs + [c])[|cs| := c] == cs + [c];
      assert TypeAttr(attrs) == t;
      var h1 := AtCluster(cs, d, "capacity_limit");
      assert StartElement(h, "capacity_limit", attrs) == Some(h1);
      var a, b := Open("capacity_limit", attrs), Shut("capacity_limit");
      ReadThree(h, a, b, b);
      ReadThree(h1, b, b, b);
    }
  }

  lemma ClusterOpens(cs: seq<ClusterConfig>, e: string)
    ensures ReadDeep(AtRoot(cs, e), [Open("rtp_cluster", [])]) == Some(AtCluster(cs, NewCluster, "rtp_cluster"))
  {
    var t := Open("rtp_cluster", []);
    assert ROOT + ["rtp_cluster"] == CLUSTER;
    ReadThree(AtRoot(cs, e), t, t, t);
  }

  lemma ClusterShuts(cs: seq<ClusterConfig>, c: ClusterConfig, e: string)
    ensures ReadDeep(AtCluster(cs, c, e), [Shut("rtp_cluster")]) == Some(AtRoot(cs + [c], e))
  {
    var t := Shut("rtp_cluster");
    assert CLUSTER[..1] == ROOT;
    ReadThree(AtCluster(cs, c, e), t, t, t);
  }

  lemma SectionsRead(cs: seq<ClusterConfig>, e: ClusterElem)
    ensures ReadDeep(AtCluster(cs, HeadMeaning(cs, e), ""),
      DnTokens(e.dn) + (LimitTokens(e.limit) + ProxiesTokens(e.proxies)))
      == Some(AtCluster(cs, ClusterMeaning(cs, e), ""))
  {
    var c := HeadMeaning(cs, e);
    var c1 := c.(dn := DnMeaning(e.dn));
    var c2 := c1.(soft := e.limit == Some(Some("soft")));
    DnRead(cs, c, e.dn);
    LimitRead(cs, c1, e.limit);
    ProxiesRead(cs, c2, e.proxies);
    DeepConcat(AtCluster(cs, c, ""), DnTokens(e.dn), LimitTokens(e.limit) + ProxiesTokens(e.proxies));
    DeepConcat(AtCluster(cs, c1, ""), LimitTokens(e.limit), ProxiesTokens(e.proxies));
  }

  lemma ClusterRead(cs: seq<ClusterConfig>, e: ClusterElem, element: string)
    ensures ReadDeep(AtRoot(cs, element), ClusterTokens(e)) == Some(AtRoot(cs + [ClusterMeaning(cs, e)], ""))
  {
    var h := AtRoot(cs, element);
    var opening: seq<Token> := [Open("rtp_cluster", [])];
    var rest := DnTokens(e.dn) + (LimitTokens(e.limit) + ProxiesTokens(e.proxies));
    ClusterOpens(cs, element);
    HeadRead(cs, e, "rtp_cluster");
    SectionsRead(cs, e);
    DeepConcat(AtCluster(cs, NewCluster, "rtp_cluster"), HeadTokens(e), rest);
    DeepConcat(h, opening, HeadTokens(e) + rest);
    DeepConcat(h, opening + (HeadTokens(e) + rest), [Shut("rtp_cluster")]);
    ClusterShuts(cs, ClusterMeaning(cs, e), "");
  }

  lemma {:induction false} ClustersRead(doc: seq<ClusterElem>, element: string)
    ensures ReadDeep(AtRoot([], element), ClustersTokens(doc)) ==
      Some(AtRoot(Meaning(doc), if doc == [] then element else ""))
    decreases |doc|
  {
    if doc != [] {
      var before, e := doc[..|doc| - 1], doc[|doc| - 1];
      ClustersRead(before, element);
      DeepConcat(AtRoot([], element), ClustersTokens(before), ClusterTokens(e));
      ClusterRead(Meaning(before), e, if before == [] then element else "");
    }
  }

  // -------------------------------------------------------------- document

  lemma RootShuts(cs: seq<ClusterConfig>, e: string)
    requires e == "" || e == "rtp_cluster_config"
    ensures ReadDeep(AtRoot(cs, e), [Shut("rtp_cluster_config")]) == Some(AtRoot(cs, ""))
  {
    var t := Shut("rtp_cluster_config");
    ReadThree(AtRoot(cs, e), t, t, t);
  }

  lemma BodyRead(doc: seq<ClusterElem>)
    ensures ReadDeep(AtRoot([], "rtp_cluster_config"), ClustersTokens(doc) + [Shut("rtp_cluster_config")])
      == Some(AtRoot(Meaning(doc), ""))
  {
    ClustersRead(doc, "rtp_cluster_config");
    DeepConcat(AtRoot([], "rtp_cluster_config"), ClustersTokens(doc), [Shut("rtp_cluster_config")]);
    RootShuts(Meaning(doc), if doc == [] then "rtp_cluster_config" else "");
  }

  lemma RootOpens()
    ensures Feed(Initial, Open("rtp_cluster_config", [])) == Some(AtRoot([], "rtp_cluster_config"))
  {
    assert [] + ["rtp_cluster_config"] == ROOT;
  }

  /**
    A document with any text between its leaves is read to its meaning, exactly when no text stands before the
    root.
  */
  lemma DocumentMeaning(ts: seq<Token>, doc: seq<ClusterElem>)
    requires Strip(ts, "") == DocTokens(doc)
    ensures Read(Initial, ts) == if ts[0].Chars? then None else Some(AtRoot(Meaning(doc), ""))
  {
    var opening := Open("rtp_cluster_config", []);
    var body := ClustersTokens(doc) + [Shut("rtp_cluster_config")];
    assert DocTokens(doc) == [opening] + body;
    if !ts[0].Chars? {
      assert Strip(ts, "")[0] == ts[0] == opening;
      assert Strip(ts, "")[1..] == Strip(ts[1..], "rtp_cluster_config") == body;
      BodyRead(doc);
      RootOpens();
      GapsAreIgnored(AtRoot([], "rtp_cluster_config"), ts[1..]);
    }
  }
}
