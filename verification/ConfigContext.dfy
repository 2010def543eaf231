/**
  The context stack of the configuration handler is the path of open sections,
  for every token stream with matching tags up to the end of the root element.
  Closing the root does not pop the stack.
*/
module ConfigContext {
  import opened Common
  import opened Config
  import opened ConfigTree
  import opened ConfigDocument

  /** The tags that are open after a stream; None when its tags do not match. */
  function TagsAfter(open: seq<string>, ts: seq<Token>): Option<seq<string>>
    decreases |ts|
  {
    if ts == [] then Some(open)
    else match Tags(open, ts[0]) case None => None case Some(next) => TagsAfter(next, ts[1..])
  }

  /** The open sections, outermost first. */
  function Sections(open: seq<string>): seq<string> {
    if open == [] then [] else Sections(open[..|open| - 1]) + Entry(open[|open| - 1])
  }

  const RootEnd := Shut("rtp_cluster_config")

  lemma ShutContext(h: GoodHandler, open: seq<string>, name: string)
    requires open != [] && h.ctx == Sections(open[..|open| - 1]) + Entry(name)
    requires EndElement(h, name).Some? && name != "rtp_cluster_config"
    ensures EndElement(h, name).value.ctx == Sections(open[..|open| - 1])
  {
    var below := Sections(open[..|open| - 1]);
    if IsSection(name) {
      assert |Entry(name)| == 1;
      assert h.ctx[..|h.ctx| - 1] == below;
    } else {
      assert h.ctx == below;
    }
  }

  lemma ContextStep(h: GoodHandler, open: seq<string>, t: Token)
    requires h.ctx == Sections(open) && t != RootEnd
    requires Feed(h, t).Some? && Tags(open, t).Some?
    ensures Feed(h, t).value.ctx == Sections(Tags(open, t).value)
  {
    match t
    case Open(name, attrs) =>
      OpenContext(h, name, attrs);
      assert (open + [name])[..|open|] == open;
    case Shut(name) => ShutContext(h, open, name);
    case Chars(text) => CharactersKeepContext(h, text);
  }

  lemma {:induction false} ContextFollows(h: GoodHandler, open: seq<string>, ts: seq<Token>)
    requires h.ctx == Sections(open) && RootEnd !in ts
    requires Read(h, ts).Some? && TagsAfter(open, ts).Some?
    ensures Read(h, ts).value.ctx == Sections(TagsAfter(open, ts).value)
    decreases |ts|
  {
    if ts != [] {
      assert ts[0] in ts;
      ContextStep(h, open, ts[0]);
      ContextFollows(Feed(h, ts[0]).value, Tags(open, ts[0]).value, ts[1..]);
    }
  }

  /**
    For every stream with matching tags that is read without a failure and has not closed the root, the stack is
    the section path.
  */
  lemma ContextIsSectionPath(ts: seq<Token>)
    requires Read(Initial, ts).Some? && TagsAfter([], ts).Some? && RootEnd !in ts
    ensures Read(Initial, ts).value.ctx == Sections(TagsAfter([], ts).value)
  {
    ContextFollows(Initial, [], ts);
  }

  // -------------------------------------------------------------- documents

  lemma {:induction false} TagsConcat(open: seq<string>, a: seq<Token>, b: seq<Token>)
    ensures TagsAfter(open, a + b) == match TagsAfter(open, a) case None => None case Some(next) => TagsAfter(next, b)
    decreases |a|
  {
    if a == [] {
      assert a + b == b;
    } else {
      assert (a + b)[1..] == a[1..] + b;
      match Tags(open, a[0])
      case None =>
      case Some(next) => TagsConcat(next, a[1..], b);
    }
  }

  ghost predicate Balanced(ts: seq<Token>) {
    forall open :: TagsAfter(open, ts) == Some(open)
  }

  lemma BalancedConcat(a: seq<Token>, b: seq<Token>)
    requires Balanced(a) && Balanced(b)
    ensures Balanced(a + b)
  {
    forall open ensures TagsAfter(open, a + b) == Some(open) {
      TagsConcat(open, a, b);
    }
  }

  lemma BalancedElement(name: string, attrs: seq<(string, string)>, inner: seq<Token>)
    requires Balanced(inner)
    ensures Balanced([Open(name, attrs)] + inner + [Shut(name)])
  {
    var ts := [Open(name, attrs)] + inner + [Shut(name)];
    forall open ensures TagsAfter(open, ts) == Some(open) {
      var deeper := open + [name];
      assert ts[0] == Open(name, attrs) && ts[1..] == inner + [Shut(name)];
      TagsConcat(deeper, inner, [Shut(name)]);
      assert [Shut(name)][1..] == [];
      assert deeper[..|open|] == open;
    }
  }

  lemma TextBalanced(text: string)
    ensures Balanced(if text == "" then [] else [Chars(text)])
  {
    forall open ensures TagsAfter(open, if text == "" then [] else [Chars(text)]) == Some(open) {
      assert [Chars(text)][1..] == [];
    }
  }

  lemma LeafBalanced(name: string, text: string)
    ensures Balanced(LeafTokens(name, text))
  {
    TextBalanced(text);
    BalancedElement(name, [], if text == "" then [] else [Chars(text)]);
  }

  lemma {:induction false} LeavesBalanced(ls: seq<(string, string)>)
    ensures Balanced(LeavesTokens(ls))
  {
    if ls != [] {
      LeafBalanced(ls[0].0, ls[0].1);
      LeavesBalanced(ls[1..]);
      BalancedConcat(LeafTokens(ls[0].0, ls[0].1), LeavesTokens(ls[1..]));
    }
  }

  lemma {:induction false} ProxiesBalanced(es: seq<ProxyElem>)
    ensures Balanced(ProxiesTokens(es))
  {
    if es != [] {
      var before, e := es[..|es| - 1], es[|es| - 1];
      ProxiesBalanced(before);
      LeavesBalanced(RequiredLeaves(e) + OptionalLeaves(e));
      BalancedElement("rtpproxy", [], LeavesTokens(RequiredLeaves(e) + OptionalLeaves(e)));
      BalancedConcat(ProxiesTokens(before), ProxyTokens(e));
    }
  }

  lemma DnBalanced(dn: Option<DnElem>)
    ensures Balanced(DnTokens(dn))
  {
    if dn.Some? {
      var a, b := LeafTokens("inbound_address", dn.value.inbound), LeafTokens("dest_socket_prefix", dn.value.prefix);
      LeafBalanced("inbound_address", dn.value.inbound);
      LeafBalanced("dest_socket_prefix", dn.value.prefix);
      BalancedConcat(a, b);
      BalancedElement("disconnect_notify", [], a + b);
    }
  }

  lemma LimitBalanced(limit: Option<Option<string>>)
    ensures Balanced(LimitTokens(limit))
  {
    if limit.Some? {
      var attrs := match limit.value case None => [] case Some(v) => [("type", v)];
      BalancedElement("capacity_limit", attrs, []);
      assert [Open("capacity_limit", attrs)] + [] + [Shut("capacity_limit")] == LimitTokens(limit);
    }
  }

  lemma HeadBalanced(e: ClusterElem)
    ensures Balanced(HeadTokens(e))
  {
    LeafBalanced("name", e.name);
    LeafBalanced("protocol", e.protocol);
    LeafBalanced("address", e.address);
    BalancedConcat(LeafTokens("protocol", e.protocol), LeafTokens("address", e.address));
    BalancedConcat(LeafTokens("name", e.name), LeafTokens("protocol", e.protocol) + LeafTokens("address", e.address));
  }

  lemma ClusterBalanced(e: ClusterElem)
    ensures Balanced(ClusterTokens(e))
  {
    var limit, dn := LimitTokens(e.limit) + ProxiesTokens(e.proxies), DnTokens(e.dn);
    HeadBalanced(e);
    DnBalanced(e.dn);
    LimitBalanced(e.limit);
    ProxiesBalanced(e.proxies);
    BalancedConcat(LimitTokens(e.limit), ProxiesTokens(e.proxies));
    BalancedConcat(dn, limit);
    BalancedConcat(HeadTokens(e), dn + limit);
    BalancedElement("rtp_cluster", [], HeadTokens(e) + (dn + limit));
  }

  lemma {:induction false} ClustersBalanced(doc: seq<ClusterElem>)
    ensures Balanced(ClustersTokens(doc))
  {
    if doc != [] {
      ClustersBalanced(doc[..|doc| - 1]);
      ClusterBalanced(doc[|doc| - 1]);
      BalancedConcat(ClustersTokens(doc[..|doc| - 1]), ClusterTokens(doc[|doc| - 1]));
    }
  }

  /** Text does not open or close anything. */
  lemma {:induction false} StripKeepsTags(open: seq<string>, ts: seq<Token>, element: string)
    ensures TagsAfter(open, Strip(ts, element)) == TagsAfter(open, ts)
    decreases |ts|
  {
    if ts != [] {
      match ts[0]
      case Open(name, _) => StripRest(open, ts, element, name);
      case Shut(name) => StripRest(open, ts, element, if !IsSection(name) && name == element then "" else element);
      case Chars(_) => StripRest(open, ts, element, element);
    }
  }

  lemma {:induction false} StripRest(open: seq<string>, ts: seq<Token>, element: string, next: string)
    requires ts != []
    requires (Strip(ts, element) == Strip(ts[1..], next) && ts[0].Chars?)
      || Strip(ts, element) == [ts[0]] + Strip(ts[1..], next)
    ensures TagsAfter(open, Strip(ts, element)) == TagsAfter(open, ts)
    decreases |ts|, 0
  {
    if Tags(open, ts[0]).Some? {
      StripKeepsTags(Tags(open, ts[0]).value, ts[1..], next);
    }
    assert ([ts[0]] + Strip(ts[1..], next))[1..] == Strip(ts[1..], next);
  }

  lemma PrefixIsRead(h: GoodHandler, open: seq<string>, ts: seq<Token>, k: nat)
    requires k <= |ts| && Read(h, ts).Some? && TagsAfter(open, ts).Some?
    ensures Read(h, ts[..k]).Some? && TagsAfter(open, ts[..k]).Some?
  {
    assert ts[..k] + ts[k..] == ts;
    ReadConcat(h, ts[..k], ts[k..]);
    TagsConcat(open, ts[..k], ts[k..]);
  }

  /**
    While a document is read, with any text between its leaves, the stack is the path of open sections at every
    token of the root element.
  */
  lemma DocumentContext(ts: seq<Token>, doc: seq<ClusterElem>, k: nat)
    requires Strip(ts, "") == DocTokens(doc) && !ts[0].Chars? && k <= |ts|
    ensures Read(Initial, ts[..k]).Some? && TagsAfter([], ts[..k]).Some?
    ensures RootEnd !in ts[..k] ==> Read(Initial, ts[..k]).value.ctx == Sections(TagsAfter([], ts[..k]).value)
  {
    DocumentMeaning(ts, doc);
    ClustersBalanced(doc);
    BalancedElement("rtp_cluster_config", [], ClustersTokens(doc));
    StripKeepsTags([], ts, "");
    PrefixIsRead(Initial, [], ts, k);
    if RootEnd !in ts[..k] {
      ContextIsSectionPath(ts[..k]);
    }
  }
}
