/**
  What a configuration document means, as a function of its element tree, and
  the proof that the token handlers compute it. The tree follows
  Rtp_cluster_config.dtd; an empty text stands for a leaf without characters.
*/
module ConfigTree {
  import opened Common
  import opened Text
  import opened Config

  datatype ProxyElem = ProxyElem(
    name: string, protocol: string, address: string, weight: string, capacity: string, status: string,
    wan: Option<string>, lan: Option<string>, cmdOut: Option<string>)

  datatype DnElem = DnElem(inbound: string, prefix: string)

  /** `limit` is the capacity_limit element with its type attribute, if there is one. */
  datatype ClusterElem = ClusterElem(
    name: string, protocol: string, address: string, dn: Option<DnElem>, limit: Option<Option<string>>,
      proxies: seq<ProxyElem>)

  // --------------------------------------------------------------- meaning

  function OrElse(text: string, default: string): string {
    if text == "" then default else text
  }

  function LowerOr(text: string, default: string): string {
    if text == "" then default else ToLower(text)
  }

  function NumberOr(text: string, default: Int64): Int64 {
    if text != "" && Atoi(text).Some? then Atoi(text).value else default
  }

  function TextOf(leaf: Option<string>): string {
    match leaf case None => "" case Some(t) => t
  }

  function ProxyMeaning(before: seq<ProxyConfig>, e: ProxyElem): ProxyConfig {
    ProxyConfig(
      if TakenProxy(before, e.name) then "" else e.name,
      LowerOr(e.protocol, NewProxy.protocol), OrElse(e.address, NewProxy.address),
      NumberOr(e.weight, NewProxy.weight), NumberOr(e.capacity, NewProxy.capacity),
      LowerOr(e.status, NewProxy.status), TextOf(e.wan), TextOf(e.lan), TextOf(e.cmdOut))
  }

  function ProxyMeanings(es: seq<ProxyElem>): (r: seq<ProxyConfig>)
    ensures |r| == |es|
  {
    if es == [] then []
    else
      var before := ProxyMeanings(es[..|es| - 1]);
      before + [ProxyMeaning(before, es[|es| - 1])]
  }

  function ClusterMeaning(before: seq<ClusterConfig>, e: ClusterElem): ClusterConfig {
    ClusterConfig(
      if TakenCluster(before, e.name) then "" else e.name,
      LowerOr(e.protocol, NewCluster.protocol), OrElse(e.address, NewCluster.address),
      ProxyMeanings(e.proxies),
      match e.dn case None => None case Some(d) => Some(DnConfig(d.inbound, d.prefix)),
      e.limit == Some(Some("soft")))
  }

  function Meaning(doc: seq<ClusterElem>): (r: seq<ClusterConfig>)
    ensures |r| == |doc|
  {
    if doc == [] then []
    else
      var before := Meaning(doc[..|doc| - 1]);
      before + [ClusterMeaning(before, doc[|doc| - 1])]
  }

  // ------------------------------------------------ meaning, leaf by leaf

  /** The fields of a proxy but its name: the leaves, with the defaults for those that are empty or no numbers. */
  predicate ReadAs(e: ProxyElem, p: ProxyConfig) {
    && p.protocol == (if e.protocol == "" then "UDP" else ToLower(e.protocol))
    && p.address == (if e.address == "" then "127.0.0.1:22222" else e.address)
    && p.weight == (match Atoi(e.weight) case None => 100 case Some(n) => n)
    && p.capacity == (match Atoi(e.capacity) case None => 4000 case Some(n) => n)
    && p.status == (if e.status == "" then "ACTIVE" else ToLower(e.status))
    && p.wan == TextOf(e.wan) && p.lan == TextOf(e.lan) && p.cmdOut == TextOf(e.cmdOut)
  }

  /** The fields of a cluster but its name and its proxies. */
  predicate ClusterReadAs(e: ClusterElem, c: ClusterConfig) {
    && c.protocol == (if e.protocol == "" then "UDP" else ToLower(e.protocol))
    && c.address == (if e.address == "" then "192.168.56.2:44" else e.address)
    && (c.soft <==> e.limit == Some(Some("soft")))
    && (c.dn.Some? <==> e.dn.Some?)
    && (e.dn.Some? ==> c.dn.value == DnConfig(e.dn.value.inbound, e.dn.value.prefix))
  }

  /** Some element before position i has this name. */
  ghost predicate ProxyNamedBefore(es: seq<ProxyElem>, i: nat, name: string)
    requires i <= |es|
  {
    exists j :: 0 <= j < i && es[j].name == name
  }

  ghost predicate ClusterNamedBefore(doc: seq<ClusterElem>, i: nat, name: string)
    requires i <= |doc|
  {
    exists j :: 0 <= j < i && doc[j].name == name
  }

  lemma {:induction false} ProxyMeaningsAt(es: seq<ProxyElem>, i: nat)
    requires i < |es|
    ensures ProxyMeanings(es)[i] == ProxyMeaning(ProxyMeanings(es[..i]), es[i])
  {
    var n := |es| - 1;
    var front := es[..n];
    assert ProxyMeanings(es)[i] == if i < n then ProxyMeanings(front)[i] else ProxyMeaning(ProxyMeanings(front), es[n]);
    if i < n {
      assert front[..i] == es[..i];
      ProxyMeaningsAt(front, i);
    }
  }

  lemma TakenProxyAfter(before: seq<ProxyConfig>, p: ProxyConfig, name: string)
    ensures TakenProxy(before + [p], name) <==> TakenProxy(before, name) || p.name == name
  {
    var after := before + [p];
    assert after[|before|] == p;
    assert forall j :: 0 <= j < |before| ==> after[j] == before[j];
  }

  lemma {:induction false} TakenProxyExactly(es: seq<ProxyElem>, i: nat, name: string)
    requires i <= |es| && name != ""
    ensures TakenProxy(ProxyMeanings(es[..i]), name) <==> ProxyNamedBefore(es, i, name)
  {
    if i > 0 {
      assert es[..i][..i - 1] == es[..i - 1];
      var before := ProxyMeanings(es[..i - 1]);
      TakenProxyExactly(es, i - 1, name);
      TakenProxyAfter(before, ProxyMeaning(before, es[i - 1]), name);
    }
  }

  /** Each proxy is read from its own leaves; the first of several that share a name keeps it, the others have none. */
  lemma {:induction false} ProxyReadExactly(es: seq<ProxyElem>, i: nat)
    requires i < |es|
    ensures ReadAs(es[i], ProxyMeanings(es)[i])
    ensures ProxyMeanings(es)[i].name == if ProxyNamedBefore(es, i, es[i].name) then "" else es[i].name
  {
    ProxyMeaningsAt(es, i);
    if es[i].name != "" {
      TakenProxyExactly(es, i, es[i].name);
    }
  }

  lemma {:induction false} MeaningAt(doc: seq<ClusterElem>, i: nat)
    requires i < |doc|
    ensures Meaning(doc)[i] == ClusterMeaning(Meaning(doc[..i]), doc[i])
  {
    var n := |doc| - 1;
    var front := doc[..n];
    assert Meaning(doc)[i] == if i < n then Meaning(front)[i] else ClusterMeaning(Meaning(front), doc[n]);
    if i < n {
      assert front[..i] == doc[..i];
      MeaningAt(front, i);
    }
  }

  lemma TakenClusterAfter(before: seq<ClusterConfig>, c: ClusterConfig, name: string)
    ensures TakenCluster(before + [c], name) <==> TakenCluster(before, name) || c.name == name
  {
    var after := before + [c];
    assert after[|before|] == c;
    assert forall j :: 0 <= j < |before| ==> after[j] == before[j];
  }

  lemma {:induction false} TakenClusterExactly(doc: seq<ClusterElem>, i: nat, name: string)
    requires i <= |doc| && name != ""
    ensures TakenCluster(Meaning(doc[..i]), name) <==> ClusterNamedBefore(doc, i, name)
  {
    if i > 0 {
      assert doc[..i][..i - 1] == doc[..i - 1];
      var before := Meaning(doc[..i - 1]);
      TakenClusterExactly(doc, i - 1, name);
      TakenClusterAfter(before, ClusterMeaning(before, doc[i - 1]), name);
    }
  }

  /** The same for the clusters of a document, with their proxies. */
  lemma {:induction false} ClusterReadExactly(doc: seq<ClusterElem>, i: nat)
    requires i < |doc|
    ensures ClusterReadAs(doc[i], Meaning(doc)[i])
    ensures Meaning(doc)[i].name == if ClusterNamedBefore(doc, i, doc[i].name) then "" else doc[i].name
    ensures var ps := Meaning(doc)[i].proxies;
      && |ps| == |doc[i].proxies|
      && forall j :: 0 <= j < |ps| ==>
           && ReadAs(doc[i].proxies[j], ps[j])
           && ps[j].name ==
                if ProxyNamedBefore(doc[i].proxies, j, doc[i].proxies[j].name) then "" else doc[i].proxies[j].name
  {
    MeaningAt(doc, i);
    if doc[i].name != "" {
      TakenClusterExactly(doc, i, doc[i].name);
    }
    forall j | 0 <= j < |doc[i].proxies|
      ensures ReadAs(doc[i].proxies[j], Meaning(doc)[i].proxies[j])
      ensures Meaning(doc)[i].proxies[j].name ==
        if ProxyNamedBefore(doc[i].proxies, j, doc[i].proxies[j].name) then "" else doc[i].proxies[j].name
    {
      ProxyReadExactly(doc[i].proxies, j);
    }
  }

  // ---------------------------------------------------------------- tokens

  function LeafTokens(name: string, text: string): seq<Token> {
    [Open(name, [])] + (if text == "" then [] else [Chars(text)]) + [Shut(name)]
  }

  function LeavesTokens(ls: seq<(string, string)>): seq<Token> {
    if ls == [] then [] else LeafTokens(ls[0].0, ls[0].1) + LeavesTokens(ls[1..])
  }

  function Optional(name: string, leaf: Option<string>): seq<(string, string)> {
    match leaf case None => [] case Some(t) => [(name, t)]
  }

  function RequiredLeaves(e: ProxyElem): seq<(string, string)> {
    [("name", e.name), ("protocol", e.protocol), ("address", e.address),
     ("weight", e.weight), ("capacity", e.capacity), ("status", e.status)]
  }

  function OptionalLeaves(e: ProxyElem): seq<(string, string)> {
    Optional("wan_address", e.wan) + Optional("lan_address", e.lan) + Optional("cmd_out_address", e.cmdOut)
  }

  function ProxyTokens(e: ProxyElem): seq<Token> {
    [Open("rtpproxy", [])] + LeavesTokens(RequiredLeaves(e) + OptionalLeaves(e)) + [Shut("rtpproxy")]
  }

  function ProxiesTokens(es: seq<ProxyElem>): seq<Token> {
    if es == [] then [] else ProxiesTokens(es[..|es| - 1]) + ProxyTokens(es[|es| - 1])
  }

  function DnTokens(dn: Option<DnElem>): seq<Token> {
    match dn
    case None => []
    case Some(d) =>
      [Open("disconnect_notify", [])]
      + (LeafTokens("inbound_address", d.inbound) + LeafTokens("dest_socket_prefix", d.prefix))
      + [Shut("disconnect_notify")]
  }

  function LimitTokens(limit: Option<Option<string>>): seq<Token> {
    match limit
    case None => []
    case Some(t) =>
      [Open("capacity_limit", match t case None => [] case Some(v) => [("type", v)]), Shut("capacity_limit")]
  }

  function HeadTokens(e: ClusterElem): seq<Token> {
    LeafTokens("name", e.name) + (LeafTokens("protocol", e.protocol) + LeafTokens("address", e.address))
  }

  function ClusterTokens(e: ClusterElem): seq<Token> {
    [Open("rtp_cluster", [])]
    + (HeadTokens(e) + (DnTokens(e.dn) + (LimitTokens(e.limit) + ProxiesTokens(e.proxies))))
    + [Shut("rtp_cluster")]
  }

  function ClustersTokens(doc: seq<ClusterElem>): seq<Token> {
    if doc == [] then [] else ClustersTokens(doc[..|doc| - 1]) + ClusterTokens(doc[|doc| - 1])
  }

  function DocTokens(doc: seq<ClusterElem>): seq<Token> {
    [Open("rtp_cluster_config", [])] + ClustersTokens(doc) + [Shut("rtp_cluster_config")]
  }

  // ------------------------------------------- reading with a context open

  /** Reading that also fails when the context stack is empty before or after a token. */
  function ReadDeep(h: GoodHandler, ts: seq<Token>): Option<GoodHandler>
    decreases |ts|
  {
    if h.ctx == [] then None
    else if ts == [] then Some(h)
    else match Feed(h, ts[0]) case None => None case Some(h1) => ReadDeep(h1, ts[1..])
  }

  lemma {:induction false} DeepConcat(h: GoodHandler, a: seq<Token>, b: seq<Token>)
    requires ReadDeep(h, a).Some?
    ensures ReadDeep(h, a + b) == ReadDeep(ReadDeep(h, a).value, b)
    decreases |a|
  {
    if a == [] {
      assert a + b == b;
    } else {
      assert (a + b)[1..] == a[1..] + b;
      DeepConcat(Feed(h, a[0]).value, a[1..], b);
    }
  }

  predicate IsLeaf(element: string) {
    IsProxyLeaf(element) || IsDnLeaf(element)
  }

  predicate IsSection(name: string) {
    name == "rtp_cluster" || name == "rtpproxy" || name == "disconnect_notify"
  }

  /** The stream without the text that stands between the leaves; `element` is the handler's current element. */
  function Strip(ts: seq<Token>, element: string): seq<Token>
    decreases |ts|
  {
    if ts == [] then []
    else match ts[0]
      case Open(name, _) => [ts[0]] + Strip(ts[1..], name)
      case Shut(name) => [ts[0]] + Strip(ts[1..], if !IsSection(name) && name == element then "" else element)
      case Chars(_) => (if IsLeaf(element) then [ts[0]] else []) + Strip(ts[1..], element)
  }

  lemma OpenElement(h: GoodHandler, name: string, attrs: seq<(string, string)>)
    requires StartElement(h, name, attrs).Some?
    ensures StartElement(h, name, attrs).value.element == name
  {
  }

  lemma ShutElement(h: GoodHandler, name: string)
    requires EndElement(h, name).Some?
    ensures EndElement(h, name).value.element == if !IsSection(name) && name == h.element then "" else h.element
  {
  }

  lemma CharactersKeepElement(h: GoodHandler, text: string)
    requires Characters(h, text).Some?
    ensures Characters(h, text).value.element == h.element
  {
  }

  lemma FeedElement(h: GoodHandler, t: Token)
    requires Feed(h, t).Some?
    ensures Feed(h, t).value.element == match t
      case Open(name, _) => name
      case Shut(name) => if !IsSection(name) && name == h.element then "" else h.element
      case Chars(_) => h.element
  {
    match t
    case Open(name, attrs) => OpenElement(h, name, attrs);
    case Shut(name) => ShutElement(h, name);
    case Chars(text) => CharactersKeepElement(h, text);
  }

  lemma GapText(h: GoodHandler, text: string)
    requires h.ctx != [] && !IsLeaf(h.element)
    ensures Characters(h, text) == Some(h)
  {
  }

  /** Text between the leaves changes nothing, as long as some section is open. */
  lemma {:induction false} GapsAreIgnored(h: GoodHandler, ts: seq<Token>)
    requires ReadDeep(h, Strip(ts, h.element)).Some?
    ensures Read(h, ts) == ReadDeep(h, Strip(ts, h.element))
    decreases |ts|
  {
    if ts != [] {
      var s := Strip(ts, h.element);
      if ts[0].Chars? && !IsLeaf(h.element) {
        GapText(h, ts[0].text);
        assert s == Strip(ts[1..], h.element);
        GapsAreIgnored(h, ts[1..]);
      } else {
        assert s[0] == ts[0];
        FeedElement(h, ts[0]);
        var h1 := Feed(h, ts[0]).value;
        assert s[1..] == Strip(ts[1..], h1.element);
        GapsAreIgnored(h1, ts[1..]);
      }
    }
  }
}
