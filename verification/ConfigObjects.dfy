/**
  The ValidateHandler object, updated token by token. A method that returns
  false stands for the run-time failure of the code; the state is then not
  looked at again.
*/
module ConfigObjects {
  import opened Common
  import opened Text
  import opened Config

  class ValidateHandler {
    var config: seq<ClusterConfig>
    var rtp_cluster: Option<nat>
    var rtpproxy: Option<Position>
    var dnconfig: Option<nat>
    var element: string
    var ctx: seq<string>

    function State(): Handler
      reads this
    {
      Handler(config, rtp_cluster, rtpproxy, dnconfig, element, ctx)
    }

    function View(): GoodHandler
      requires Sound(State())
      reads this
    {
      State()
    }

    constructor ()
      ensures State() == Initial
    {
      config, rtp_cluster, rtpproxy, dnconfig, element, ctx := [], None, None, None, "", [];
    }

    method StartElement(name: string, attrs: seq<(string, string)>) returns (ok: bool)
      requires Sound(State())
      modifies this
      ensures ok <==> Config.StartElement(old(View()), name, attrs).Some?
      ensures ok ==> Some(State()) == Config.StartElement(old(View()), name, attrs)
    {
      element := name;
      if element == "rtp_cluster_config" {
        ctx := ctx + ["rtp_cluster_config"];
      } else if element == "rtp_cluster" {
        rtp_cluster := Some(|config|);
        config := config + [NewCluster];
        ctx := ctx + ["rtp_cluster"];
      } else if element == "rtpproxy" {
        ok := StartProxy();
        return;
      } else if element == "disconnect_notify" {
        ok := StartNotify();
        return;
      } else if element == "capacity_limit" {
        if ctx == [] {
          return false;
        }
        if ctx[|ctx| - 1] == "rtp_cluster" {
          ok := SetLimit(attrs);
          return;
        }
      }
      ok := true;
    }

    method StartProxy() returns (ok: bool)
      requires Sound(State()) && element == "rtpproxy"
      modifies this`config, this`rtpproxy, this`ctx
      ensures ok <==> Config.StartElement(old(View()), "rtpproxy", []).Some?
      ensures ok ==> Some(State()) == Config.StartElement(old(View()), "rtpproxy", [])
    {
      if rtp_cluster.None? {
        return false;
      }
      var i := rtp_cluster.value;
      rtpproxy := Some(Position(i, |config[i].proxies|));
      config := config[i := config[i].(proxies := config[i].proxies + [NewProxy])];
      ctx := ctx + ["rtpproxy"];
      ok := true;
    }

    method StartNotify() returns (ok: bool)
      requires Sound(State()) && element == "disconnect_notify"
      modifies this`config, this`dnconfig, this`ctx
      ensures ok <==> Config.StartElement(old(View()), "disconnect_notify", []).Some?
      ensures ok ==> Some(State()) == Config.StartElement(old(View()), "disconnect_notify", [])
    {
      if rtp_cluster.None? {
        return false;
      }
      dnconfig := rtp_cluster;
      config := config[rtp_cluster.value := config[rtp_cluster.value].(dn := Some(DnConfig("", "")))];
      ctx := ctx + ["dnconfig"];
      ok := true;
    }

    /** The attribute loop of capacity_limit. */
    method SetLimit(attrs: seq<(string, string)>) returns (ok: bool)
      requires Sound(State())
      modifies this`config
      ensures ok <==> TypeAttr(attrs).None? || rtp_cluster.Some?
      ensures ok ==> State() == if TypeAttr(attrs).None? then old(State())
        else PutCluster(old(View()), rtp_cluster.value,
          old(config)[rtp_cluster.value].(soft := TypeAttr(attrs).value == "soft"))
    {
      var i := 0;
      while i < |attrs| && attrs[i].0 != "type"
        invariant 0 <= i <= |attrs| && TypeAttr(attrs[i..]) == TypeAttr(attrs)
      {
        assert attrs[i..][1..] == attrs[i + 1..];
        i := i + 1;
      }
      if i == |attrs| {
        return true;
      }
      if rtp_cluster.None? {
        return false;
      }
      config := config[rtp_cluster.value := config[rtp_cluster.value].(soft := attrs[i].1 == "soft")];
      ok := true;
    }

    method EndElement(name: string) returns (ok: bool)
      requires Sound(State())
      modifies this
      ensures ok <==> Config.EndElement(old(View()), name).Some?
      ensures ok ==> Some(State()) == Config.EndElement(old(View()), name)
    {
      if name == "rtp_cluster" {
        rtp_cluster := None;
        ok := PopContext();
      } else if name == "rtpproxy" {
        rtpproxy := None;
        ok := PopContext();
      } else if name == "disconnect_notify" {
        dnconfig := None;
        ok := PopContext();
      } else {
        if name == element {
          element := "";
        }
        ok := true;
      }
    }

    method PopContext() returns (ok: bool)
      modifies this`ctx
      ensures ok <==> old(ctx) != []
      ensures ok ==> ctx == old(ctx)[..|old(ctx)| - 1]
    {
      if ctx == [] {
        return false;
      }
      ctx := ctx[..|ctx| - 1];
      ok := true;
    }

    /** The search for a cluster of the same name. */
    method ClusterNameTaken(name: string) returns (taken: bool)
      ensures taken <==> TakenCluster(config, name)
    {
      for i := 0 to |config|
        invariant forall k :: 0 <= k < i ==> config[k].name != name
      {
        if config[i].name == name {
          return true;
        }
      }
      taken := false;
    }

    method ProxyNameTaken(proxies: seq<ProxyConfig>, name: string) returns (taken: bool)
      ensures taken <==> TakenProxy(proxies, name)
    {
      for i := 0 to |proxies|
        invariant forall k :: 0 <= k < i ==> proxies[k].name != name
      {
        if proxies[i].name == name {
          return true;
        }
      }
      taken := false;
    }

    method Characters(content: string) returns (ok: bool)
      requires Sound(State())
      modifies this`config
      ensures ok <==> Config.Characters(old(View()), content).Some?
      ensures ok ==> Some(State()) == Config.Characters(old(View()), content)
    {
      if ctx == [] {
        return false;
      }
      var top := ctx[|ctx| - 1];
      if top == "rtp_cluster" && IsClusterLeaf(element) {
        ok := ClusterCharacters(content);
      } else if top == "rtpproxy" && IsProxyLeaf(element) {
        ok := ProxyCharacters(content);
      } else if top == "dnconfig" && IsDnLeaf(element) {
        if dnconfig.None? {
          return false;
        }
        var c := config[dnconfig.value];
        config := config[dnconfig.value := c.(dn := Some(DnLeaf(c.dn.value, element, content)))];
        ok := true;
      } else {
        ok := true;
      }
    }

    method ClusterCharacters(content: string) returns (ok: bool)
      requires Sound(State()) && ctx != [] && ctx[|ctx| - 1] == "rtp_cluster" && IsClusterLeaf(element)
      modifies this`config
      ensures ok <==> Config.Characters(old(View()), content).Some?
      ensures ok ==> Some(State()) == Config.Characters(old(View()), content)
    {
      if element == "name" {
        var taken := ClusterNameTaken(content);
        if taken {
          return true;
        }
      }
      if rtp_cluster.None? {
        return false;
      }
      var i := rtp_cluster.value;
      if element == "name" {
        config := config[i := config[i].(name := content)];
      } else if element == "protocol" {
        config := config[i := config[i].(protocol := ToLower(content))];
      } else {
        config := config[i := config[i].(address := content)];
      }
      ok := true;
    }

    method ProxyCharacters(content: string) returns (ok: bool)
      requires Sound(State()) && ctx != [] && ctx[|ctx| - 1] == "rtpproxy" && IsProxyLeaf(element)
      modifies this`config
      ensures ok <==> Config.Characters(old(View()), content).Some?
      ensures ok ==> Some(State()) == Config.Characters(old(View()), content)
    {
      if element == "name" {
        if rtp_cluster.None? {
          return false;
        }
        var taken := ProxyNameTaken(config[rtp_cluster.value].proxies, content);
        if taken {
          return true;
        }
      }
      if (element == "weight" || element == "capacity") && Atoi(content).None? {
        return true;
      }
      if rtpproxy.None? {
        return false;
      }
      var at := rtpproxy.value;
      var c := config[at.cluster];
      var p := SetField(c.proxies[at.proxy], element, content);
      config := config[at.cluster := c.(proxies := c.proxies[at.proxy := p])];
      ok := true;
    }
  }

  /** The assignment to one field of a proxy. */
  method SetField(p: ProxyConfig, element: string, content: string) returns (r: ProxyConfig)
    requires element == "weight" || element == "capacity" ==> Atoi(content).Some?
    ensures r == ProxyLeaf([], p, element, content)
  {
    if element == "name" {
      r := p.(name := content);
    } else if element == "protocol" {
      r := p.(protocol := ToLower(content));
    } else if element == "address" {
      r := p.(address := content);
    } else if element == "wan_address" {
      r := p.(wan := content);
    } else if element == "lan_address" {
      r := p.(lan := content);
    } else if element == "cmd_out_address" {
      r := p.(cmdOut := content);
    } else if element == "weight" {
      r := p.(weight := Atoi(content).value);
    } else if element == "capacity" {
      r := p.(capacity := Atoi(content).value);
    } else if element == "status" {
      r := p.(status := ToLower(content));
    } else {
      r := p;
    }
  }

  /** The token loop of Read_cluster_config; None when a handler fails. */
  method ReadClusterConfig(tokens: seq<Token>) returns (r: Option<seq<ClusterConfig>>)
    ensures r == match Read(Initial, tokens) case None => None case Some(h) => Some(h.config)
  {
    var parsed := new ValidateHandler();
    for i := 0 to |tokens|
      invariant Sound(parsed.State())
      invariant Read(parsed.View(), tokens[i..]) == Read(Initial, tokens)
    {
      assert tokens[i..][1..] == tokens[i + 1..];
      var ok: bool;
      match tokens[i] {
        case Open(name, attrs) => ok := parsed.StartElement(name, attrs);
        case Shut(name) => ok := parsed.EndElement(name);
        case Chars(text) => ok := parsed.Characters(text);
      }
      if !ok {
        return None;
      }
    }
    r := Some(parsed.config);
  }
}
