/**
  The configuration reader: ValidateHandler folds the tokens of the XML decoder.
  Pointers to the current cluster and proxy are positions in the result, since
  every object is reached from there. None stands for an index out of range or
  a nil pointer, which ends the program. Errors returned by Characters are
  ignored by the caller, so only their effect on the state is kept.
*/
module Config {
  import opened Common
  import opened Text

  datatype DnConfig = DnConfig(inAddress: string, destPrefix: string)

  datatype ProxyConfig = ProxyConfig(
    name: string, protocol: string, address: string, weight: Int64, capacity: Int64,
    status: string, wan: string, lan: string, cmdOut: string)

  datatype ClusterConfig = ClusterConfig(
    name: string, protocol: string, address: string, proxies: seq<ProxyConfig>, dn: Option<DnConfig>, soft: bool)

  const NewProxy := ProxyConfig("", "UDP", "127.0.0.1:22222", 100, 4000, "ACTIVE", "", "", "")
  const NewCluster := ClusterConfig("", "UDP", "192.168.56.2:44", [], None, false)

  datatype Token =
    | Open(name: string, attrs: seq<(string, string)>)
    | Shut(name: string)
    | Chars(text: string)

  datatype Position = Position(cluster: nat, proxy: nat)

  datatype Handler = Handler(
    config: seq<ClusterConfig>,
    cluster: Option<nat>,
    proxy: Option<Position>,
    dn: Option<nat>,           // the cluster whose dnconfig is being read
    element: string,
    ctx: seq<string>)

  const Initial := Handler([], None, None, None, "", [])

  /** The positions point at objects that exist. */
  predicate Sound(h: Handler) {
    && (h.cluster.Some? ==> h.cluster.value < |h.config|)
    && (h.proxy.Some? ==>
          h.proxy.value.cluster < |h.config| && h.proxy.value.proxy < |h.config[h.proxy.value.cluster].proxies|)
    && (h.dn.Some? ==> h.dn.value < |h.config| && h.config[h.dn.value].dn.Some?)
  }

  type GoodHandler = h: Handler | Sound(h) witness Initial

  function PutCluster(h: GoodHandler, i: nat, c: ClusterConfig): (r: GoodHandler)
    requires i < |h.config| && |c.proxies| >= |h.config[i].proxies| && (h.config[i].dn.Some? ==> c.dn.Some?)
  {
    h.(config := h.config[i := c])
  }

  function PutProxy(h: GoodHandler, p: ProxyConfig): (r: GoodHandler)
    requires h.proxy.Some?
  {
    var c := h.config[h.proxy.value.cluster];
    PutCluster(h, h.proxy.value.cluster, c.(proxies := c.proxies[h.proxy.value.proxy := p]))
  }

  /** The value of the first attribute called type. */
  function TypeAttr(attrs: seq<(string, string)>): Option<string> {
    if attrs == [] then None else if attrs[0].0 == "type" then Some(attrs[0].1) else TypeAttr(attrs[1..])
  }

  function StartElement(h0: GoodHandler, name: string, attrs: seq<(string, string)>): Option<GoodHandler> {
    var h: GoodHandler := h0.(element := name);
    if name == "rtp_cluster_config" then Some(h.(ctx := h.ctx + ["rtp_cluster_config"]))
    else if name == "rtp_cluster" then
      Some(h.(config := h.config + [NewCluster], cluster := Some(|h.config|), ctx := h.ctx + ["rtp_cluster"]))
    else if name == "rtpproxy" then
      if h.cluster.None? then None
      else
        var i := h.cluster.value;
        var c := h.config[i];
        var h1 := PutCluster(h, i, c.(proxies := c.proxies + [NewProxy]));
        Some(h1.(proxy := Some(Position(i, |c.proxies|)), ctx := h.ctx + ["rtpproxy"]))
    else if name == "disconnect_notify" then
      if h.cluster.None? then None
      else
        var i := h.cluster.value;
        var h1 := PutCluster(h, i, h.config[i].(dn := Some(DnConfig("", ""))));
        Some(h1.(dn := Some(i), ctx := h.ctx + ["dnconfig"]))
    else if name == "capacity_limit" then
      if h.ctx == [] then None
      else if h.ctx[|h.ctx| - 1] == "rtp_cluster" && TypeAttr(attrs).Some? then
        if h.cluster.None? then None
        else Some(PutCluster(h, h.cluster.value, h.config[h.cluster.value].(soft := TypeAttr(attrs).value == "soft")))
      else Some(h)
    else Some(h)
  }

  function EndElement(h: GoodHandler, name: string): Option<GoodHandler> {
    if name == "rtp_cluster" || name == "rtpproxy" || name == "disconnect_notify" then
      if h.ctx == [] then None
      else
        var h1 := h.(ctx := h.ctx[..|h.ctx| - 1]);
        Some(if name == "rtp_cluster" then h1.(cluster := None)
             else if name == "rtpproxy" then h1.(proxy := None)
             else h1.(dn := None))
    else if name == h.element then Some(h.(element := ""))
    else Some(h)
  }

  predicate TakenCluster(cs: seq<ClusterConfig>, name: string) {
    exists i :: 0 <= i < |cs| && cs[i].name == name
  }

  predicate TakenProxy(ps: seq<ProxyConfig>, name: string) {
    exists i :: 0 <= i < |ps| && ps[i].name == name
  }

  /** A text inside a leaf of a cluster; the name is not touched when another cluster has it. */
  function ClusterLeaf(all: seq<ClusterConfig>, c: ClusterConfig, element: string, text: string): (r: ClusterConfig)
    ensures r.proxies == c.proxies && r.dn == c.dn
  {
    if element == "name" then if TakenCluster(all, text) then c else c.(name := text)
    else if element == "protocol" then c.(protocol := ToLower(text))
    else if element == "address" then c.(address := text)
    else c
  }

  /** A text inside a leaf of a proxy; numbers that do not parse are dropped. */
  function ProxyLeaf(all: seq<ProxyConfig>, p: ProxyConfig, element: string, text: string): ProxyConfig {
    if element == "name" then if TakenProxy(all, text) then p else p.(name := text)
    else if element == "protocol" then p.(protocol := ToLower(text))
    else if element == "address" then p.(address := text)
    else if element == "wan_address" then p.(wan := text)
    else if element == "lan_address" then p.(lan := text)
    else if element == "cmd_out_address" then p.(cmdOut := text)
    else if element == "weight" then if Atoi(text).Some? then p.(weight := Atoi(text).value) else p
    else if element == "capacity" then if Atoi(text).Some? then p.(capacity := Atoi(text).value) else p
    else if element == "status" then p.(status := ToLower(text))
    else p
  }

  function DnLeaf(d: DnConfig, element: string, text: string): DnConfig {
    if element == "inbound_address" then d.(inAddress := text)
    else if element == "dest_socket_prefix" then d.(destPrefix := text)
    else d
  }

  predicate IsClusterLeaf(element: string) {
    element == "name" || element == "protocol" || element == "address"
  }

  predicate IsProxyLeaf(element: string) {
    IsClusterLeaf(element)
    || element in ["wan_address", "lan_address", "cmd_out_address", "weight", "capacity", "status"]
  }

  predicate IsDnLeaf(element: string) {
    element == "inbound_address" || element == "dest_socket_prefix"
  }

  function Characters(h: GoodHandler, text: string): Option<GoodHandler> {
    if h.ctx == [] then None
    else
      var top := h.ctx[|h.ctx| - 1];
      if top == "rtp_cluster" && IsClusterLeaf(h.element) then
        if h.element == "name" && TakenCluster(h.config, text) then Some(h)
        else if h.cluster.None? then None
        else Some(PutCluster(h, h.cluster.value, ClusterLeaf(h.config, h.config[h.cluster.value], h.element, text)))
      else if top == "rtpproxy" && IsProxyLeaf(h.element) then
        if h.element == "name" && h.cluster.None? then None
        else if h.element == "name" && TakenProxy(h.config[h.cluster.value].proxies, text) then Some(h)
        else if (h.element == "weight" || h.element == "capacity") && Atoi(text).None? then Some(h)
        else if h.proxy.None? then None
        else
          var at := h.proxy.value;
          Some(PutProxy(h, ProxyLeaf([], h.config[at.cluster].proxies[at.proxy], h.element, text)))
      else if top == "dnconfig" && IsDnLeaf(h.element) then
        if h.dn.None? then None
        else
          var c := h.config[h.dn.value];
          Some(PutCluster(h, h.dn.value, c.(dn := Some(DnLeaf(c.dn.value, h.element, text)))))
      else Some(h)
  }

  function Feed(h: GoodHandler, t: Token): Option<GoodHandler> {
    match t
    case Open(name, attrs) => StartElement(h, name, attrs)
    case Shut(name) => EndElement(h, name)
    case Chars(text) => Characters(h, text)
  }

  /** The open tags after one more token; None for a closing tag that does not match. */
  function Tags(open: seq<string>, t: Token): Option<seq<string>> {
    match t
    case Open(name, _) => Some(open + [name])
    case Shut(name) => if open != [] && open[|open| - 1] == name then Some(open[..|open| - 1]) else None
    case Chars(_) => Some(open)
  }

  /** What a tag puts on the stack: sections and the root do, leaves do not. */
  function Entry(tag: string): seq<string> {
    if tag == "rtp_cluster_config" || tag == "rtp_cluster" || tag == "rtpproxy" then [tag]
    else if tag == "disconnect_notify" then ["dnconfig"]
    else []
  }

  lemma OpenContext(h: GoodHandler, name: string, attrs: seq<(string, string)>)
    requires StartElement(h, name, attrs).Some?
    ensures StartElement(h, name, attrs).value.ctx == h.ctx + Entry(name)
  {
  }

  lemma OpenPositions(h: GoodHandler, name: string, attrs: seq<(string, string)>)
    requires StartElement(h, name, attrs).Some?
    ensures var n := StartElement(h, name, attrs).value;
      && n.cluster == (if name == "rtp_cluster" then Some(|h.config|) else h.cluster)
      && (name == "rtpproxy" ==> n.proxy.Some? && n.cluster == Some(n.proxy.value.cluster))
      && (name != "rtpproxy" ==> n.proxy == h.proxy)
  {
  }

  /** Reading a token stream; None when the program fails on the way. */
  function Read(h: GoodHandler, ts: seq<Token>): Option<GoodHandler>
    decreases |ts|
  {
    if ts == [] then Some(h)
    else match Feed(h, ts[0]) case None => None case Some(h1) => Read(h1, ts[1..])
  }

  lemma {:induction false} ReadConcat(h: GoodHandler, a: seq<Token>, b: seq<Token>)
    ensures Read(h, a + b) == match Read(h, a) case None => None case Some(h1) => Read(h1, b)
    decreases |a|
  {
    if a == [] {
      assert a + b == b;
    } else {
      assert (a + b)[1..] == a[1..] + b;
      match Feed(h, a[0])
      case None =>
      case Some(h1) => ReadConcat(h1, a[1..], b);
    }
  }
}
