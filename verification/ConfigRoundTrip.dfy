/**
  Writing a configuration (Gen_cluster_config) and reading it back.

  The writer is taken at the level of the elements it prints. Its line for the
  capacity limit, "<capacity_limit_type=true>", is not a start tag of XML 1.0
  (section 3.1), so the decoder stops there; the form of the DTD would be read.
  Both are covered.
*/
module ConfigRoundTrip {
  import opened Common
  import opened Text
  import opened Config
  import opened ConfigTree
  import opened ConfigDocument

  function NonEmpty(text: string): Option<string> {
    if text == "" then None else Some(TrimSpace(text))
  }

  function GenProxy(p: ProxyConfig): ProxyElem {
    ProxyElem(TrimSpace(p.name), TrimSpace(p.protocol), TrimSpace(p.address), Itoa(p.weight), Itoa(p.capacity),
              TrimSpace(p.status), NonEmpty(p.wan), NonEmpty(p.lan), NonEmpty(p.cmdOut))
  }

  function GenProxies(ps: seq<ProxyConfig>): (r: seq<ProxyElem>)
    ensures |r| == |ps|
  {
    if ps == [] then [] else GenProxies(ps[..|ps| - 1]) + [GenProxy(ps[|ps| - 1])]
  }

  /** The element of one cluster, with the capacity limit in the form of the DTD. */
  function GenCluster(c: ClusterConfig): ClusterElem {
    ClusterElem(
      TrimSpace(c.name), TrimSpace(c.protocol), TrimSpace(c.address),
      match c.dn case None => None case Some(d) => Some(DnElem(d.inAddress, d.destPrefix)),
      Some(Some(if c.soft then "soft" else "hard")),
      GenProxies(c.proxies))
  }

  function GenDoc(cs: seq<ClusterConfig>): (r: seq<ClusterElem>)
    ensures |r| == |cs|
  {
    if cs == [] then [] else GenDoc(cs[..|cs| - 1]) + [GenCluster(cs[|cs| - 1])]
  }

  // ------------------------------------------------------- canonical values

  predicate CanonicalWord(text: string) {
    TrimSpace(text) != "" && ToLower(TrimSpace(text)) == text
  }

  predicate CanonicalText(text: string) {
    TrimSpace(text) == text
  }

  predicate CanonicalProxy(before: seq<ProxyConfig>, p: ProxyConfig) {
    && CanonicalText(p.name) && (p.name != "" ==> !TakenProxy(before, p.name))
    && CanonicalWord(p.protocol) && CanonicalWord(p.status)
    && CanonicalText(p.address) && p.address != ""
    && CanonicalText(p.wan) && CanonicalText(p.lan) && CanonicalText(p.cmdOut)
  }

  predicate CanonicalProxies(ps: seq<ProxyConfig>) {
    ps == [] || (CanonicalProxies(ps[..|ps| - 1]) && CanonicalProxy(ps[..|ps| - 1], ps[|ps| - 1]))
  }

  predicate CanonicalCluster(before: seq<ClusterConfig>, c: ClusterConfig) {
    && CanonicalText(c.name) && (c.name != "" ==> !TakenCluster(before, c.name))
    && CanonicalWord(c.protocol)
    && CanonicalText(c.address) && c.address != ""
    && CanonicalProxies(c.proxies)
  }

  /** Trimmed, lower-case, non-empty where a default would take over, and without duplicate names. */
  predicate Canonical(cs: seq<ClusterConfig>) {
    cs == [] || (Canonical(cs[..|cs| - 1]) && CanonicalCluster(cs[..|cs| - 1], cs[|cs| - 1]))
  }

  lemma DefaultsAreNotCanonical()
    ensures !CanonicalWord("UDP") && !CanonicalWord("ACTIVE") && !CanonicalWord("")
  {
    assert ToLower(TrimSpace("UDP"))[0] == 'u';
    assert ToLower(TrimSpace("ACTIVE"))[0] == 'a';
  }

  lemma TrimOfEmpty()
    ensures TrimSpace("") == ""
  {
  }

  lemma WordBack(text: string, default: string)
    requires default == "UDP" || default == "ACTIVE"
    ensures LowerOr(TrimSpace(text), default) == text <==>
      CanonicalWord(text) || (text == default && TrimSpace(text) == "")
  {
    DefaultsAreNotCanonical();
  }

  lemma DefaultsSurviveTrimming()
    ensures TrimSpace("UDP") == "UDP" && TrimSpace("ACTIVE") == "ACTIVE"
    ensures TrimSpace("127.0.0.1:22222") == "127.0.0.1:22222" && TrimSpace("192.168.56.2:44") == "192.168.56.2:44"
  {
  }

  lemma TextBack(text: string)
    ensures TextOf(NonEmpty(text)) == text <==> CanonicalText(text)
  {
    TrimOfEmpty();
  }

  lemma AddressBack(text: string, default: string)
    requires TrimSpace(default) == default != ""
    ensures OrElse(TrimSpace(text), default) == text <==> CanonicalText(text) && text != ""
  {
  }

  lemma ProxyBack(before: seq<ProxyConfig>, p: ProxyConfig)
    ensures ProxyMeaning(before, GenProxy(p)) == p <==> CanonicalProxy(before, p)
  {
    AtoiOfItoa(p.weight);
    AtoiOfItoa(p.capacity);
    DefaultsSurviveTrimming();
    WordBack(p.protocol, "UDP");
    WordBack(p.status, "ACTIVE");
    AddressBack(p.address, NewProxy.address);
    TextBack(p.wan);
    TextBack(p.lan);
    TextBack(p.cmdOut);
    TrimOfEmpty();
  }

  lemma {:induction false} ProxiesBack(ps: seq<ProxyConfig>)
    ensures ProxyMeanings(GenProxies(ps)) == ps <==> CanonicalProxies(ps)
  {
    if ps != [] {
      var before, p := ps[..|ps| - 1], ps[|ps| - 1];
      ProxiesBack(before);
      ProxyBack(before, p);
      MeaningsOfAppended(GenProxies(before), GenProxy(p));
      AppendEquals(ProxyMeanings(GenProxies(before)), ProxyMeaning(ProxyMeanings(GenProxies(before)), GenProxy(p)), ps);
    }
  }

  lemma MeaningsOfAppended(es: seq<ProxyElem>, e: ProxyElem)
    ensures ProxyMeanings(es + [e]) == ProxyMeanings(es) + [ProxyMeaning(ProxyMeanings(es), e)]
  {
    assert (es + [e])[..|es|] == es;
  }

  lemma AppendEquals<T>(a: seq<T>, x: T, s: seq<T>)
    requires s != []
    ensures a + [x] == s <==> a == s[..|s| - 1] && x == s[|s| - 1]
  {
    assert s == s[..|s| - 1] + [s[|s| - 1]];
    if a + [x] == s {
      assert s[..|s| - 1] == a && s[|s| - 1] == x;
    }
  }

  lemma ClusterBack(before: seq<ClusterConfig>, c: ClusterConfig)
    ensures ClusterMeaning(before, GenCluster(c)) == c <==> CanonicalCluster(before, c)
  {
    DefaultsSurviveTrimming();
    WordBack(c.protocol, "UDP");
    AddressBack(c.address, NewCluster.address);
    ProxiesBack(c.proxies);
    TrimOfEmpty();
    var m := ClusterMeaning(before, GenCluster(c));
    assert m.dn == c.dn;
    assert m.soft == c.soft;
  }

  lemma {:induction false} DocBack(cs: seq<ClusterConfig>)
    ensures Meaning(GenDoc(cs)) == cs <==> Canonical(cs)
  {
    if cs != [] {
      var before, c := cs[..|cs| - 1], cs[|cs| - 1];
      DocBack(before);
      ClusterBack(before, c);
      DocMeaningOfAppended(GenDoc(before), GenCluster(c));
      AppendEquals(Meaning(GenDoc(before)), ClusterMeaning(Meaning(GenDoc(before)), GenCluster(c)), cs);
    }
  }

  lemma DocMeaningOfAppended(es: seq<ClusterElem>, e: ClusterElem)
    ensures Meaning(es + [e]) == Meaning(es) + [ClusterMeaning(Meaning(es), e)]
  {
    assert (es + [e])[..|es|] == es;
  }

  /**
    With the capacity limit in DTD form, what is written and read back, with any white space between, is the
    same exactly for canonical lists.
  */
  lemma RoundTripExactly(cs: seq<ClusterConfig>, ts: seq<Token>)
    requires Strip(ts, "") == DocTokens(GenDoc(cs)) && !ts[0].Chars?
    ensures Read(Initial, ts).Some? && (Read(Initial, ts).value.config == cs <==> Canonical(cs))
  {
    DocumentMeaning(ts, GenDoc(cs));
    DocBack(cs);
  }

  // ---------------------------------------------------------- as coded

  /** The tokens the decoder delivers before the error at the first capacity limit. */
  function CodedTokens(cs: seq<ClusterConfig>): seq<Token> {
    if cs == [] then DocTokens([])
    else
      var e := GenCluster(cs[0]);
      [Open("rtp_cluster_config", [])] + ([Open("rtp_cluster", [])] + (HeadTokens(e) + DnTokens(e.dn)))
  }

  /** What is read back as coded: the first cluster without its proxies and its limit. */
  function CodedResult(cs: seq<ClusterConfig>): seq<ClusterConfig> {
    if cs == [] then [] else [ClusterMeaning([], GenCluster(cs[0])).(proxies := [], soft := false)]
  }

  lemma CodedRead(cs: seq<ClusterConfig>)
    requires cs != []
    ensures ReadDeep(AtRoot([], "rtp_cluster_config"), CodedTokens(cs)[1..]) ==
      Some(AtCluster([], CodedResult(cs)[0], ""))
  {
    var e := GenCluster(cs[0]);
    var opening: seq<Token> := [Open("rtp_cluster", [])];
    assert CodedTokens(cs)[1..] == opening + (HeadTokens(e) + DnTokens(e.dn));
    ClusterOpens([], "rtp_cluster_config");
    HeadRead([], e, "rtp_cluster");
    DnRead([], HeadMeaning([], e), e.dn);
    DeepConcat(AtRoot([], "rtp_cluster_config"), opening, HeadTokens(e) + DnTokens(e.dn));
    DeepConcat(AtCluster([], NewCluster, "rtp_cluster"), HeadTokens(e), DnTokens(e.dn));
  }

  lemma CodedReading(cs: seq<ClusterConfig>, ts: seq<Token>)
    requires Strip(ts, "") == CodedTokens(cs) && !ts[0].Chars?
    ensures Read(Initial, ts).Some? && Read(Initial, ts).value.config == CodedResult(cs)
  {
    if cs == [] {
      DocumentMeaning(ts, []);
    } else {
      var opening := Open("rtp_cluster_config", []);
      assert Strip(ts, "")[0] == ts[0] == opening;
      assert Strip(ts, "")[1..] == Strip(ts[1..], "rtp_cluster_config");
      CodedRead(cs);
      assert [] + ["rtp_cluster_config"] == ROOT;
      assert Feed(Initial, opening) == Some(AtRoot([], "rtp_cluster_config"));
      GapsAreIgnored(AtRoot([], "rtp_cluster_config"), ts[1..]);
      assert [] + [CodedResult(cs)[0]] == CodedResult(cs);
    }
  }

  /**
    As coded, a list survives exactly when it is empty, or a single canonical cluster without proxies and with a
    hard limit.
  */
  lemma CodedRoundTripExactly(cs: seq<ClusterConfig>, ts: seq<Token>)
    requires Strip(ts, "") == CodedTokens(cs) && !ts[0].Chars?
    ensures Read(Initial, ts).Some? &&
      (Read(Initial, ts).value.config == cs <==>
        cs == [] || (|cs| == 1 && cs[0].proxies == [] && !cs[0].soft && CanonicalCluster([], cs[0])))
  {
    CodedReading(cs, ts);
    if cs != [] {
      ClusterBack([], cs[0]);
      ProxiesBack([]);
      if |cs| == 1 && cs[0].proxies == [] && !cs[0].soft {
        assert ClusterMeaning([], GenCluster(cs[0])).proxies == [];
        assert !ClusterMeaning([], GenCluster(cs[0])).soft;
        assert cs == [cs[0]];
      }
    }
  }

  /** Gen_cluster_config: the elements are appended cluster by cluster, proxy by proxy. */
  method GenClusterConfig(clusters: seq<ClusterConfig>) returns (doc: seq<ClusterElem>)
    ensures doc == GenDoc(clusters)
  {
    doc := [];
    for i := 0 to |clusters|
      invariant doc == GenDoc(clusters[..i])
    {
      var c := clusters[i];
      var proxies: seq<ProxyElem> := [];
      for j := 0 to |c.proxies|
        invariant proxies == GenProxies(c.proxies[..j])
      {
        assert c.proxies[..j + 1][..j] == c.proxies[..j];
        proxies := proxies + [GenProxy(c.proxies[j])];
      }
      assert c.proxies[..|c.proxies|] == c.proxies;
      assert clusters[..i + 1][..i] == clusters[..i];
      doc := doc + [ClusterElem(
                      TrimSpace(c.name), TrimSpace(c.protocol), TrimSpace(c.address),
                      match c.dn case None => None case Some(d) => Some(DnElem(d.inAddress, d.destPrefix)),
                      Some(Some(if c.soft then "soft" else "hard")),
                      proxies)];
    }
    assert clusters[..|clusters|] == clusters;
  }
}
