/**
  Duplicate names are never stored, whatever the token stream, as long as its
  tags match: the decoder delivers no other streams. The check of a proxy name
  looks at the current cluster, the assignment at the current proxy, and after
  nested elements the two may disagree; the tracked depths show why this does
  no harm.
*/
module ConfigNames {
  import opened Common
  import opened Config

  ghost predicate ClusterNamesDistinct(cs: seq<ClusterConfig>) {
    forall i, j :: 0 <= i < j < |cs| && cs[i].name != "" ==> cs[i].name != cs[j].name
  }

  ghost predicate ProxyNamesDistinct(ps: seq<ProxyConfig>) {
    forall i, j :: 0 <= i < j < |ps| && ps[i].name != "" ==> ps[i].name != ps[j].name
  }

  ghost predicate NamesDistinct(cs: seq<ClusterConfig>) {
    ClusterNamesDistinct(cs) && forall i :: 0 <= i < |cs| ==> ProxyNamesDistinct(cs[i].proxies)
  }

  /**
    The handler, the tags that are open, and their number and the stack height right after the current proxy was
    opened.
  */
  datatype Track = Track(h: GoodHandler, open: seq<string>, tags: nat, height: nat)

  predicate Pushes(tag: string) {
    tag == "rtp_cluster" || tag == "rtpproxy" || tag == "disconnect_notify"
  }

  /** How many open tags will pop the context stack when they are closed. */
  function Pops(open: seq<string>): nat {
    if open == [] then 0 else Pops(open[..|open| - 1]) + if Pushes(open[|open| - 1]) then 1 else 0
  }

  /** The next state of the decoder and the handler; None for a tag that does not match or a failure. */
  function Next(t: Track, tok: Token): Option<Track> {
    var h, open := Feed(t.h, tok), Tags(t.open, tok);
    if h.None? || open.None? then None
    else if tok.Open? && tok.name == "rtpproxy" then Some(Track(h.value, open.value, |open.value|, |h.value.ctx|))
    else Some(Track(h.value, open.value, t.tags, t.height))
  }

  function Follow(ts: seq<Token>): Option<Track> {
    if ts == [] then Some(Track(Initial, [], 0, 0))
    else match Follow(ts[..|ts| - 1]) case None => None case Some(t) => Next(t, ts[|ts| - 1])
  }

  /** The facts about nesting that keep the two positions apart. */
  ghost predicate Nested(t: Track) {
    t.h.proxy.Some? ==>
      && 0 < t.tags <= |t.open| && t.open[t.tags - 1] == "rtpproxy"
      && t.height <= |t.h.ctx|
      && |t.h.ctx| >= t.height + Pops(t.open[t.tags..])
      && (forall k :: t.height <= k < |t.h.ctx| ==> t.h.ctx[k] != "rtpproxy")
      && (t.h.cluster.Some? && t.h.cluster.value != t.h.proxy.value.cluster ==>
          Pops(t.open[t.tags..]) > 0 && "rtp_cluster" in t.open[t.tags..])
  }

  lemma PopsAppend(open: seq<string>, name: string)
    ensures Pops(open + [name]) == Pops(open) + if Pushes(name) then 1 else 0
  {
    assert (open + [name])[..|open|] == open;
  }

  lemma {:induction false} PopsOfCluster(open: seq<string>)
    requires "rtp_cluster" in open
    ensures Pops(open) > 0
  {
    if open[|open| - 1] != "rtp_cluster" {
      assert "rtp_cluster" in open[..|open| - 1];
      PopsOfCluster(open[..|open| - 1]);
    }
  }

  lemma NestedOpen(t: Track, tok: Token)
    requires Nested(t) && tok.Open? && Next(t, tok).Some?
    ensures Nested(Next(t, tok).value)
  {
    var n := Next(t, tok).value;
    OpenContext(t.h, tok.name, tok.attrs);
    OpenPositions(t.h, tok.name, tok.attrs);
    if tok.name == "rtpproxy" {
      assert n.open[n.tags..] == [];
    } else if t.h.proxy.Some? {
      assert n.open[n.tags..] == t.open[t.tags..] + [tok.name];
      PopsAppend(t.open[t.tags..], tok.name);
    }
  }

  lemma NestedShut(t: Track, tok: Token)
    requires Nested(t) && tok.Shut? && Next(t, tok).Some?
    ensures Nested(Next(t, tok).value)
  {
    var n := Next(t, tok).value;
    if n.h.proxy.Some? {
      var last := |t.open| - 1;
      assert last >= t.tags;
      assert t.open[t.tags..] == n.open[t.tags..] + [tok.name];
      PopsAppend(n.open[t.tags..], tok.name);
      if n.h.cluster.Some? && n.h.cluster.value != n.h.proxy.value.cluster {
        PopsOfCluster(n.open[t.tags..]);
      }
    }
  }

  lemma NestedChars(t: Track, tok: Token)
    requires Nested(t) && tok.Chars? && Next(t, tok).Some?
    ensures Nested(Next(t, tok).value)
  {
  }

  /** Inside the context of a proxy, the current proxy belongs to the current cluster. */
  lemma Aligned(t: Track)
    requires Nested(t) && t.h.proxy.Some? && t.h.cluster.Some?
    requires t.h.ctx != [] && t.h.ctx[|t.h.ctx| - 1] == "rtpproxy"
    ensures t.h.proxy.value.cluster == t.h.cluster.value
  {
  }

  lemma ClusterRenameKeeps(cs: seq<ClusterConfig>, i: nat, name: string)
    requires i < |cs| && ClusterNamesDistinct(cs) && !TakenCluster(cs, name)
    ensures ClusterNamesDistinct(cs[i := cs[i].(name := name)])
  {
  }

  lemma ProxyRenameKeeps(ps: seq<ProxyConfig>, i: nat, name: string)
    requires i < |ps| && ProxyNamesDistinct(ps) && !TakenProxy(ps, name)
    ensures ProxyNamesDistinct(ps[i := ps[i].(name := name)])
  {
  }

  /** Replacing a cluster by one with the same name and distinct proxy names. */
  lemma UpdateKeeps(cs: seq<ClusterConfig>, i: nat, c: ClusterConfig)
    requires i < |cs| && NamesDistinct(cs) && c.name == cs[i].name && ProxyNamesDistinct(c.proxies)
    ensures NamesDistinct(cs[i := c])
  {
  }

  lemma SameNameKeeps(ps: seq<ProxyConfig>, i: nat, p: ProxyConfig)
    requires i < |ps| && ProxyNamesDistinct(ps) && p.name == ps[i].name
    ensures ProxyNamesDistinct(ps[i := p])
  {
  }

  lemma ClusterTextKeepsNames(h: GoodHandler, i: nat, element: string, text: string)
    requires i < |h.config| && NamesDistinct(h.config)
    ensures NamesDistinct(h.config[i := ClusterLeaf(h.config, h.config[i], element, text)])
  {
    if element == "name" && !TakenCluster(h.config, text) {
      ClusterRenameKeeps(h.config, i, text);
    } else {
      UpdateKeeps(h.config, i, ClusterLeaf(h.config, h.config[i], element, text));
    }
  }

  lemma ProxyTextKeepsNames(h: GoodHandler, element: string, text: string)
    requires NamesDistinct(h.config) && h.proxy.Some?
    requires element == "name" ==> !TakenProxy(h.config[h.proxy.value.cluster].proxies, text)
    ensures var at := h.proxy.value;
      NamesDistinct(PutProxy(h, ProxyLeaf([], h.config[at.cluster].proxies[at.proxy], element, text)).config)
  {
    var at := h.proxy.value;
    var c := h.config[at.cluster];
    var p := ProxyLeaf([], c.proxies[at.proxy], element, text);
    if element == "name" {
      ProxyRenameKeeps(c.proxies, at.proxy, text);
    } else {
      SameNameKeeps(c.proxies, at.proxy, p);
    }
    UpdateKeeps(h.config, at.cluster, c.(proxies := c.proxies[at.proxy := p]));
  }

  lemma CharsKeepNames(t: Track, text: string)
    requires Nested(t) && NamesDistinct(t.h.config) && Characters(t.h, text).Some?
    ensures NamesDistinct(Characters(t.h, text).value.config)
  {
    var h := t.h;
    var r := Characters(h, text).value;
    if r != h {
      var top := h.ctx[|h.ctx| - 1];
      if top == "rtp_cluster" {
        ClusterTextKeepsNames(h, h.cluster.value, h.element, text);
      } else if top == "rtpproxy" {
        if h.element == "name" {
          Aligned(t);
        }
        ProxyTextKeepsNames(h, h.element, text);
      } else {
        var c := h.config[h.dn.value];
        UpdateKeeps(h.config, h.dn.value, c.(dn := Some(DnLeaf(c.dn.value, h.element, text))));
      }
    }
  }

  /** A change of one cluster that keeps its name and adds at most an unnamed proxy. */
  lemma ClusterChangeKeepsNames(h: GoodHandler, i: nat, c: ClusterConfig)
    requires NamesDistinct(h.config) && i < |h.config| && c.name == h.config[i].name
    requires c.proxies == h.config[i].proxies || c.proxies == h.config[i].proxies + [NewProxy]
    ensures NamesDistinct(h.config[i := c])
  {
    UpdateKeeps(h.config, i, c);
  }

  /** What an opening tag does to the clusters. */
  lemma OpenClusters(h: GoodHandler, name: string, attrs: seq<(string, string)>)
    requires StartElement(h, name, attrs).Some?
    ensures var next := StartElement(h, name, attrs).value.config;
      || next == h.config
      || next == h.config + [NewCluster]
      || exists i, c :: 0 <= i < |h.config| && next == h.config[i := c] && c.name == h.config[i].name
           && (c.proxies == h.config[i].proxies || c.proxies == h.config[i].proxies + [NewProxy])
  {
    var next := StartElement(h, name, attrs).value.config;
    if h.cluster.Some? && name != "rtp_cluster" {
      var i := h.cluster.value;
      assert next == h.config || next == h.config[i := next[i]];
    }
  }

  lemma OpenKeepsNames(h: GoodHandler, name: string, attrs: seq<(string, string)>)
    requires NamesDistinct(h.config) && StartElement(h, name, attrs).Some?
    ensures NamesDistinct(StartElement(h, name, attrs).value.config)
  {
    OpenClusters(h, name, attrs);
    var next := StartElement(h, name, attrs).value.config;
    if next != h.config && next != h.config + [NewCluster] {
      var i, c :| 0 <= i < |h.config| && next == h.config[i := c] && c.name == h.config[i].name
        && (c.proxies == h.config[i].proxies || c.proxies == h.config[i].proxies + [NewProxy]);
      ClusterChangeKeepsNames(h, i, c);
    }
  }

  lemma NextKeepsNames(t: Track, tok: Token)
    requires Nested(t) && NamesDistinct(t.h.config) && Next(t, tok).Some?
    ensures NamesDistinct(Next(t, tok).value.h.config)
  {
    match tok
    case Open(name, attrs) => OpenKeepsNames(t.h, name, attrs);
    case Shut(_) =>
    case Chars(text) => CharsKeepNames(t, text);
  }

  lemma {:induction false} NestedAlways(ts: seq<Token>)
    requires Follow(ts).Some?
    ensures Nested(Follow(ts).value) && NamesDistinct(Follow(ts).value.h.config)
  {
    if ts != [] {
      var t, tok := Follow(ts[..|ts| - 1]).value, ts[|ts| - 1];
      NestedAlways(ts[..|ts| - 1]);
      NextKeepsNames(t, tok);
      match tok
      case Open(_, _) => NestedOpen(t, tok);
      case Shut(_) => NestedShut(t, tok);
      case Chars(_) => NestedChars(t, tok);
    }
  }

  lemma {:induction false} FollowReads(ts: seq<Token>)
    requires Follow(ts).Some?
    ensures Read(Initial, ts) == Some(Follow(ts).value.h)
  {
    if ts != [] {
      var before := ts[..|ts| - 1];
      FollowReads(before);
      ReadConcat(Initial, before, [ts[|ts| - 1]]);
      assert before + [ts[|ts| - 1]] == ts;
      assert [ts[|ts| - 1]][1..] == [];
    }
  }

  /** For every stream with matching tags that is read without a failure, non-empty names are distinct. */
  lemma {:induction false} DuplicateNamesNeverStored(ts: seq<Token>)
    requires Follow(ts).Some?
    ensures Read(Initial, ts).Some? && NamesDistinct(Read(Initial, ts).value.config)
  {
    FollowReads(ts);
    NestedAlways(ts);
  }
}
