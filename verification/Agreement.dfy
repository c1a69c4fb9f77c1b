/** Links and client JSON are two renderings of one policy: same keys, same endpoints. */
module Agreement {
  import opened Decimal
  import opened Names
  import opened Policy
  import opened Links
  import opened ClientConfig

  // ---------- keys ----------

  function LinkKeys(links: seq<Link>): seq<string> { seq(|links|, i requires 0 <= i < |links| => links[i].key) }

  function ProxyKeys(ps: seq<Proxy>): seq<string> { seq(|ps|, i requires 0 <= i < |ps| => ps[i].key) }

  function OutboundKeys(bs: seq<Outbound>): seq<string> { seq(|bs|, i requires 0 <= i < |bs| => bs[i].proxy.key) }

  /** How often a key occurs. */
  function Times(keys: seq<string>, k: string): nat { multiset(keys)[k] }

  function One(on: bool): nat { if on then 1 else 0 }

  /** The keys of a selection are the selection of the keys. */
  lemma ChosenLinkKeys(on: seq<bool>, items: seq<Link>)
    requires |on| == |items| == 6
    ensures LinkKeys(Chosen(on, items)) == Chosen(on, LinkKeys(items))
  {
    hide Pick;
    PickLinkKeys(on, items);
  }

  lemma PickLinkKeys(on: seq<bool>, items: seq<Link>)
    requires |on| == |items| == 6
    ensures LinkKeys([]) == []
    ensures forall list, i :: 0 <= i < 6 ==> LinkKeys(Pick(list, on[i], items[i])) == Pick(LinkKeys(list), on[i], LinkKeys(items)[i])
  {
    forall list, i | 0 <= i < 6
      ensures LinkKeys(Pick(list, on[i], items[i])) == Pick(LinkKeys(list), on[i], LinkKeys(items)[i])
    {
      assert LinkKeys(list + [items[i]]) == LinkKeys(list) + [items[i].key];
    }
  }

  lemma ChosenProxyKeys(on: seq<bool>, items: seq<Proxy>)
    requires |on| == |items| == 6
    ensures ProxyKeys(Chosen(on, items)) == Chosen(on, ProxyKeys(items))
  {
    hide Pick;
    PickProxyKeys(on, items);
  }

  lemma PickProxyKeys(on: seq<bool>, items: seq<Proxy>)
    requires |on| == |items| == 6
    ensures ProxyKeys([]) == []
    ensures forall list, i :: 0 <= i < 6 ==> ProxyKeys(Pick(list, on[i], items[i])) == Pick(ProxyKeys(list), on[i], ProxyKeys(items)[i])
  {
    forall list, i | 0 <= i < 6
      ensures ProxyKeys(Pick(list, on[i], items[i])) == Pick(ProxyKeys(list), on[i], ProxyKeys(items)[i])
    {
      assert ProxyKeys(list + [items[i]]) == ProxyKeys(list) + [items[i].key];
    }
  }

  lemma PickTimes(keys: seq<string>, on: bool, key: string, k: string)
    ensures Times(Pick(keys, on, key), k) == Times(keys, k) + One(on && key == k)
  {
  }

  lemma ChosenTimes(on: seq<bool>, keys: seq<string>, k: string)
    requires |on| == |keys| == 6
    ensures Times(Chosen(on, keys), k)
         == One(on[0] && keys[0] == k) + One(on[1] && keys[1] == k) + One(on[2] && keys[2] == k)
            + One(on[3] && keys[3] == k) + One(on[4] && keys[4] == k) + One(on[5] && keys[5] == k)
  {
    hide Pick, Times;
    assert Times([], k) == 0 by { NoTimes(k); }
    forall list, i | 0 <= i < 6 ensures Times(Pick(list, on[i], keys[i]), k) == Times(list, k) + One(on[i] && keys[i] == k) {
      PickTimes(list, on[i], keys[i], k);
    }
  }

  lemma NoTimes(k: string)
    ensures Times([], k) == 0
  {
  }

  /** The tags of the custom inbounds that get a link, in table order. */
  function LinkedTags(o: LinkOpts, customs: seq<CustomInbound>): seq<string> {
    if customs == [] then []
    else
      LinkedTags(o, customs[..|customs| - 1])
      + IfThen(Linked(customs[|customs| - 1], o), customs[|customs| - 1].tag)
  }

  lemma {:induction false} CustomLinkKeys(o: LinkOpts, customs: seq<CustomInbound>)
    ensures LinkKeys(CustomLinks(o, customs)) == LinkedTags(o, customs)
  {
    if customs != [] { CustomLinkKeys(o, customs[..|customs| - 1]); }
  }

  lemma LinkKeysConcat(a: seq<Link>, b: seq<Link>)
    ensures LinkKeys(a + b) == LinkKeys(a) + LinkKeys(b)
  {
  }

  lemma OutboundKeysConcat(a: seq<Outbound>, b: seq<Outbound>)
    ensures OutboundKeys(a + b) == OutboundKeys(a) + OutboundKeys(b)
  {
  }

  lemma {:induction false} CustomOutboundKeys(o: LinkOpts, customs: seq<CustomInbound>, used: nat)
    ensures OutboundKeys(CustomOutbounds(o, GrantedCustoms(o.overrides, customs), used)) == LinkedTags(o, customs)
  {
    if customs != [] {
      var rest, last := customs[..|customs| - 1], customs[|customs| - 1];
      var before := GrantedCustoms(o.overrides, rest);
      CustomOutboundKeys(o, rest, used);
      if GrantedCustom(o.overrides, last.tag) {
        CustomOutboundsStep(o, before, last, used);
        OutboundKeysConcat(CustomOutbounds(o, before, used), CustomOutbound(o, last, used + |before|));
        OneCustomKey(o, last, used + |before|);
        assert GrantedCustoms(o.overrides, customs) == before + [last];
      } else {
        assert GrantedCustoms(o.overrides, customs) == before;
      }
    }
  }

  lemma OneCustomKey(o: LinkOpts, ib: CustomInbound, order: nat)
    ensures OutboundKeys(CustomOutbound(o, ib, order)) == IfThen(Reachable(ib, o), ib.tag)
  {
  }

  lemma TaggedKeys(ps: seq<Proxy>)
    ensures OutboundKeys(Tagged(ps)) == ProxyKeys(ps)
  {
  }

  /** The six protocols stand in a different order in the two lists. */
  predicate Reordered<T(==)>(links: seq<T>, proxies: seq<T>)
    requires |links| == |proxies| == 6
  {
    && links[0] == proxies[1] && links[1] == proxies[3] && links[2] == proxies[2]
    && links[3] == proxies[4] && links[4] == proxies[5] && links[5] == proxies[0]
  }

  lemma GrantsReordered(o: LinkOpts)
    ensures |LinkGrants(o)| == |JsonGrants(o)| == 6 && Reordered(LinkGrants(o), JsonGrants(o))
  {
  }

  lemma BuiltinNames(o: LinkOpts)
    ensures WsLink(o).key == WsProxy(o).key && XhttpLink(o).key == XhttpProxy(o).key && HuLink(o).key == HuProxy(o).key
    ensures VmessLink(o).key == VmessProxy(o).key && TrojanLink(o).key == TrojanProxy(o).key
    ensures RealityLink(o).key == RealityProxy(o).key
  {
    hide FmtName, TlsHead, RealityHead, BuiltinRealityTail, TlsStream, RealityStream, JsonPort;
  }

  lemma KeysReordered(o: LinkOpts)
    ensures |BuiltinCandidates(o)| == |JsonCandidates(o)| == 6
    ensures Reordered(LinkKeys(BuiltinCandidates(o)), ProxyKeys(JsonCandidates(o)))
  {
    hide WsLink, XhttpLink, HuLink, VmessLink, TrojanLink, RealityLink;
    hide WsProxy, XhttpProxy, HuProxy, VmessProxy, TrojanProxy, RealityProxy;
    BuiltinNames(o);
  }

  lemma SameTimes(on: seq<bool>, keys: seq<string>, off: seq<bool>, others: seq<string>, k: string)
    requires |on| == |keys| == |off| == |others| == 6 && Reordered(on, off) && Reordered(keys, others)
    ensures Times(Chosen(on, keys), k) == Times(Chosen(off, others), k)
  {
    hide Chosen, Times;
    ChosenTimes(on, keys, k);
    ChosenTimes(off, others, k);
  }

  lemma BuiltinKeysAgree(o: LinkOpts, k: string)
    ensures Times(LinkKeys(BuiltinLinks(o)), k) == Times(ProxyKeys(BuiltinProxies(o)), k)
  {
    GrantsReordered(o);
    KeysReordered(o);
    hide Chosen, Times, LinkGrants, JsonGrants, BuiltinCandidates, JsonCandidates, Reordered;
    ChosenLinkKeys(LinkGrants(o), BuiltinCandidates(o));
    ChosenProxyKeys(JsonGrants(o), JsonCandidates(o));
    SameTimes(LinkGrants(o), LinkKeys(BuiltinCandidates(o)), JsonGrants(o), ProxyKeys(JsonCandidates(o)), k);
  }

  lemma LinkKeysSplit(o: LinkOpts)
    ensures LinkKeys(AllLinks(o)) == LinkKeys(BuiltinLinks(o)) + LinkedTags(o, o.customs)
  {
    CustomLinkKeys(o, o.customs);
    LinkKeysConcat(BuiltinLinks(o), CustomLinks(o, o.customs));
  }

  lemma OutboundKeysSplit(o: LinkOpts)
    ensures OutboundKeys(AllOutbounds(o)) == ProxyKeys(BuiltinProxies(o)) + LinkedTags(o, o.customs)
  {
    var used := |BuiltinProxies(o)|;
    CustomOutboundKeys(o, o.customs, used);
    TaggedKeys(BuiltinProxies(o));
    OutboundKeysConcat(Tagged(BuiltinProxies(o)), CustomOutbounds(o, GrantedCustoms(o.overrides, o.customs), used));
  }

  /** For every client, toggle map, override list and list of customs, the share links and
      the proxy outbounds of the client JSON carry the same keys, as often. */
  lemma KeysAgree(o: LinkOpts)
    ensures multiset(LinkKeys(AllLinks(o))) == multiset(OutboundKeys(AllOutbounds(o)))
  {
    LinkKeysSplit(o);
    OutboundKeysSplit(o);
    var a, b := LinkKeys(BuiltinLinks(o)), ProxyKeys(BuiltinProxies(o));
    forall k ensures Times(a, k) == Times(b, k) { BuiltinKeysAgree(o, k); }
    SameBag(a, b, LinkedTags(o, o.customs));
  }

  lemma SameBag(a: seq<string>, b: seq<string>, rest: seq<string>)
    requires forall k :: Times(a, k) == Times(b, k)
    ensures multiset(a + rest) == multiset(b + rest)
  {
    forall k ensures multiset(a)[k] == multiset(b)[k] { assert Times(a, k) == Times(b, k); }
    assert multiset(a) == multiset(b);
  }

  /** `ClientJSON` reports its error exactly when the link list is empty. */
  lemma ErrorExactlyWithoutLinks(o: LinkOpts)
    ensures AllOutbounds(o) == [] <==> AllLinks(o) == []
  {
    KeysAgree(o);
    assert |multiset(LinkKeys(AllLinks(o)))| == |AllLinks(o)|;
    assert |multiset(OutboundKeys(AllOutbounds(o)))| == |AllOutbounds(o)|;
  }

  // ---------- the main outbound ----------

  /** Some outbound carries the tag "proxy", the one Xray routes to first. */
  ghost predicate HasMain(bs: seq<Outbound>) { exists b :: b in bs && b.tag == "proxy" }

  lemma AltIsNotMain(order: nat, base: string)
    ensures TagFor(order, base) == "proxy" <==> order == 0
  {
    if order > 0 { assert TagFor(order, base)[0] == 'a'; }
  }

  lemma {:induction false} CustomMain(o: LinkOpts, granted: seq<CustomInbound>, used: nat)
    ensures HasMain(CustomOutbounds(o, granted, used)) <==> used == 0 && |granted| > 0 && Reachable(granted[0], o)
  {
    if granted != [] {
      var k := |granted| - 1;
      CustomMain(o, granted[..k], used);
      AltIsNotMain(used + k, granted[k].tag);
      LastMain(o, granted[k], used + k);
      HasMainConcat(CustomOutbounds(o, granted[..k], used), CustomOutbound(o, granted[k], used + k));
    }
  }

  lemma LastMain(o: LinkOpts, ib: CustomInbound, order: nat)
    ensures HasMain(CustomOutbound(o, ib, order)) <==> order == 0 && Reachable(ib, o)
  {
    AltIsNotMain(order, ib.tag);
    if Reachable(ib, o) {
      assert CustomOutbound(o, ib, order)[0].tag == TagFor(order, ib.tag);
    }
  }

  lemma HasMainConcat(a: seq<Outbound>, b: seq<Outbound>)
    ensures HasMain(a + b) <==> HasMain(a) || HasMain(b)
  {
    forall x | x in a || x in b ensures x in a + b { }
  }

  lemma TaggedMain(ps: seq<Proxy>)
    ensures HasMain(Tagged(ps)) <==> |ps| > 0
  {
    if |ps| > 0 { assert Tagged(ps)[0].tag == "proxy"; }
  }

  /** A "proxy" outbound exists exactly when the first rendered candidate is usable: a
      built-in one, or else the first granted custom inbound if it is reachable. An
      unreachable first custom consumes the tag and leaves the config without one. */
  lemma MainOutboundExactly(o: LinkOpts)
    ensures
      var granted := GrantedCustoms(o.overrides, o.customs);
      HasMain(AllOutbounds(o)) <==> BuiltinProxies(o) != [] || (granted != [] && Reachable(granted[0], o))
  {
    var granted := GrantedCustoms(o.overrides, o.customs);
    var used := |BuiltinProxies(o)|;
    TaggedMain(BuiltinProxies(o));
    CustomMain(o, granted, used);
    HasMainConcat(Tagged(BuiltinProxies(o)), CustomOutbounds(o, granted, used));
  }

  /** A config whose first custom inbound has no public address: the main Reality proxy is
      set, and this port is not the one the second proxy forwards. */
  function UnreachableFirst(): LinkOpts {
    LinkOpts("id", "name", ["ib-1", "ib-2"], "host.example", "sni.example", "", "",
             map[VLESS_REALITY := true, VLESS_WS := true, VLESS_XHTTP := true, VLESS_HU := true, VMESS_WS := true, TROJAN_WS := true],
             "pub", "sid",
             Config(443, 10085, "8080", "/ws", "/xh", "/hu", "/vm", "/tr", "tcp", "svc", "sni.example",
                    "tcp.example", "5555", "", "", 0),
             [CustomInbound("ib-1", "a", "vless", "tcp", "reality", 8443, 0, "", "sni.example"),
              CustomInbound("ib-2", "b", "vless", "ws", "tls", 0, 10100, "/abc", "")])
  }

  /** There "proxy" is missing although the client has an outbound. */
  lemma MainOutboundMissing()
    ensures AllOutbounds(UnreachableFirst()) != [] && !HasMain(AllOutbounds(UnreachableFirst()))
  {
    hide CustomProxy, RealityProxy, WsProxy, HuProxy, XhttpProxy, VmessProxy, TrojanProxy;
    var o := UnreachableFirst();
    var first, second := o.customs[0], o.customs[1];
    assert !Reachable(first, o) && Reachable(second, o);
    NoBuiltins(o);
    GrantedStep(o.overrides, o.customs, 0);
    GrantedStep(o.overrides, o.customs, 1);
    assert o.customs[..0] == [] && o.customs[..2] == o.customs;
    assert "ib-1" in o.overrides && "ib-2" in o.overrides;
    var granted := GrantedCustoms(o.overrides, o.customs);
    assert granted == [first] + [second];
    CustomOutboundsStep(o, [first], second, 0);
    MainOutboundExactly(o);
  }

  /** A client whose list names no built-in protocol gets none. */
  lemma NoBuiltins(o: LinkOpts)
    requires o.overrides != [] && VLESS_REALITY !in o.overrides && VLESS_WS !in o.overrides && VLESS_XHTTP !in o.overrides
    requires VLESS_HU !in o.overrides && VMESS_WS !in o.overrides && TROJAN_WS !in o.overrides
    ensures BuiltinProxies(o) == []
  {
    hide JsonCandidates;
    assert forall i :: 0 <= i < 6 ==> !JsonGrants(o)[i];
  }
}
