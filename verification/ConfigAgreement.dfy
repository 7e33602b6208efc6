/** Servers and clients compile the same nodes: what the two sides agree on, and where they part. */
module ConfigAgreement {
  import opened Wrappers
  import opened Nodes
  import opened ServerConfig
  import opened ClientConfig

  // ----- the three client formats ----------------------------------------------------------

  /** What a client needs to reach a node: its shown name, its address, its port, and the user's secret. */
  datatype Entry = Entry(name: string, address: string, port: Port, secret: string)

  function OfOutbound(o: Outbound): Entry { Entry(o.tag, o.server, o.port, o.secret.s) }
  function OfProxy(p: Proxy): Entry { Entry(p.name, p.server, p.port, p.secret.s) }
  function OfLink(l: Link): Entry { Entry(l.name, l.host, l.port, l.user.s) }

  /** The entry a view stands for, when its protocol is known. */
  function Wanted(v: View): Option<Entry> {
    if Supported(v.node.protocol) then Some(Entry(v.node.name, v.node.address, v.node.port, v.uuid)) else None
  }

  function Mapped<T, U>(s: seq<T>, f: T -> U): seq<U> { seq(|s|, i requires 0 <= i < |s| => f(s[i])) }

  lemma {:induction false} CollectMaps<T>(views: seq<View>, entry: View -> Option<T>, of: T -> Entry)
    requires forall v :: entry(v).Some? <==> Wanted(v).Some?
    requires forall v :: entry(v).Some? ==> of(entry(v).value) == Wanted(v).value
    ensures Mapped(Collect(views, entry), of) == Collect(views, Wanted)
  {
    if views != [] {
      var p, v := views[..|views| - 1], views[|views| - 1];
      CollectMaps(p, entry, of);
      var c := Collect(p, entry);
      assert Wanted(v).Some? <==> entry(v).Some?;
      if entry(v).Some? {
        assert Mapped(c + [entry(v).value], of) == Mapped(c, of) + [of(entry(v).value)];
      }
    }
  }

  lemma OutboundsAsWanted(views: seq<View>)
    ensures Mapped(Collect(views, SingBoxOutbound), OfOutbound) == Collect(views, Wanted)
  {
    CollectMaps(views, SingBoxOutbound, OfOutbound);
  }

  lemma ProxiesAsWanted(views: seq<View>)
    ensures Mapped(Collect(views, ClashProxy), OfProxy) == Collect(views, Wanted)
  {
    CollectMaps(views, ClashProxy, OfProxy);
  }

  lemma LinksAsWanted(views: seq<View>)
    ensures Mapped(Collect(views, ShareLink), OfLink) == Collect(views, Wanted)
  {
    CollectMaps(views, ShareLink, OfLink);
  }

  /** For any list of nodes sing-box, Clash and share-link clients are given the same names, addresses, ports and
      secrets in the same order. */
  lemma ClientsAgree(views: seq<View>)
    ensures var all := Expanded(views);
            && Mapped(Collect(all, SingBoxOutbound), OfOutbound) == Mapped(Collect(all, ClashProxy), OfProxy)
            && Mapped(Collect(all, ClashProxy), OfProxy) == Mapped(Collect(all, ShareLink), OfLink)
  {
    OutboundsAsWanted(Expanded(views));
    ProxiesAsWanted(Expanded(views));
    LinksAsWanted(Expanded(views));
  }

  // ----- server and client -----------------------------------------------------------------

  /** The k-th view of one node shows its k-th inbound. */
  lemma ViewShowsInbound(v: View, k: nat)
    requires k < |Inbounds(v.node)|
    ensures var w, i := ViewsOf(v)[k], Inbounds(v.node)[k];
            && w.uuid == v.uuid && w.node.address == v.node.address
            && w.node.protocol == i.protocol && w.node.port == i.port && w.node.tls == i.tls
            && w.node.name == if |Inbounds(v.node)| == 1 then v.node.name
                else v.node.name + " [" + Name(i.protocol) + "]"
  {
  }

  lemma ExpandOne(v: View)
    ensures Expanded([v]) == ViewsOf(v)
  {
    assert [v][..0] == [];
  }

  lemma {:induction false} CollectAll<T>(views: seq<View>, f: View -> Option<T>)
    ensures |Collect(views, f)| <= |views|
    ensures |Collect(views, f)| == |views| <==> forall k :: 0 <= k < |views| ==> f(views[k]).Some?
    ensures |Collect(views, f)| == |views| ==> forall k :: 0 <= k < |views| ==>
            f(views[k]) == Some(Collect(views, f)[k])
  {
    if views != [] {
      CollectAll(views[..|views| - 1], f);
    }
  }

  /** Every protocol a node listens with is known. */
  predicate AllSupported(n: Node) { forall k :: 0 <= k < |Inbounds(n)| ==> Supported(Inbounds(n)[k].protocol) }

  /** Either server document renders exactly when every inbound's protocol is known. */
  lemma RendersIffSupported(n: Node, sorted: seq<Subscriber>)
    ensures ServerConfig.SingBoxDocument(n, sorted).Some? <==> AllSupported(n)
    ensures XrayDocument(n, sorted).Some? <==> AllSupported(n)
  {
    SingBoxRenders(n, sorted);
    XrayRenders(n, sorted);
  }

  lemma SingBoxRenders(n: Node, sorted: seq<Subscriber>)
    ensures ServerConfig.SingBoxDocument(n, sorted).Some? <==> AllSupported(n)
  {
    var build := i => SingBoxListener(i, sorted);
    assert forall i :: build(i).Some? <==> Supported(i.protocol);
    var _ := AllOf(Inbounds(n), build);
  }

  lemma XrayRenders(n: Node, sorted: seq<Subscriber>)
    ensures XrayDocument(n, sorted).Some? <==> AllSupported(n)
  {
    var build := i => XrayListener(i, sorted);
    assert forall i :: build(i).Some? <==> Supported(i.protocol);
    var _ := AllOf(Inbounds(n), build);
  }

  lemma OutboundIffSupported(v: View)
    ensures SingBoxOutbound(v).Some? <==> Supported(v.node.protocol)
  {
  }

  /** The client gets an entry for every inbound exactly when the server can render the node. */
  lemma ClientCompleteIffServerRenders(n: Node, uuid: string, sorted: seq<Subscriber>)
    ensures |Collect(Expanded([View(n, uuid)]), SingBoxOutbound)| == |Inbounds(n)|
            <==> ServerConfig.SingBoxDocument(n, sorted).Some?
  {
    SingBoxRenders(n, sorted);
    ClientCompleteIffSupported(View(n, uuid));
  }

  lemma ClientCompleteIffSupported(v: View)
    ensures |Collect(Expanded([v]), SingBoxOutbound)| == |Inbounds(v.node)| <==> AllSupported(v.node)
  {
    hide SingBoxOutbound, Collect, Expanded;
    var vs := ViewsOf(v);
    ExpandOne(v);
    CollectAll(vs, SingBoxOutbound);
    forall k | 0 <= k < |vs| ensures SingBoxOutbound(vs[k]).Some? <==> Supported(Inbounds(v.node)[k].protocol) {
      ViewShowsInbound(v, k);
      OutboundIffSupported(vs[k]);
    }
  }

  /** A user of an inbound holds this secret and flow. */
  predicate LetsIn(users: seq<User>, secret: Secret, flow: Option<string>) {
    exists j :: 0 <= j < |users| && users[j].secret == secret && users[j].flow == flow
  }

  /** A client outbound that reaches a server inbound: same type, port and cipher, TLS on both or neither, and a
      secret the inbound lets in. */
  predicate Reaches(o: Outbound, l: SingBoxInbound) {
    && o.kind == l.kind && o.port == l.port && o.cipher == l.cipher
    && (o.tls.Some? <==> l.tls.Some?)
    && LetsIn(l.users, o.secret, o.flow)
  }

  lemma OutboundReaches(i: Inbound, v: View, sorted: seq<Subscriber>, s: Subscriber)
    requires Supported(i.protocol) && v.node.protocol == i.protocol && v.node.port == i.port
    requires s in sorted && s.uuid == v.uuid
    ensures Reaches(SingBoxOutbound(v).value, SingBoxListener(i, sorted).value)
    ensures SingBoxOutbound(v).value.server == v.node.address
  {
    var j :| 0 <= j < |sorted| && sorted[j] == s;
    assert SingBoxListener(i, sorted).value.users[j] == SingBoxUser(i.protocol, s);
  }

  /** When the server's sing-box document renders, the client's outbounds for the node correspond to the server's
      inbounds one to one and in order, and for every active subscriber each outbound reaches its inbound. */
  lemma SingBoxSidesAgree(n: Node, s: Subscriber, subs: seq<Subscriber>, sorted: seq<Subscriber>)
    requires SortOf(sorted, subs) && s in subs && ServerConfig.SingBoxDocument(n, sorted).Some?
    ensures var ins := ServerConfig.SingBoxDocument(n, sorted).value.inbounds;
            var outs := Collect(Expanded([View(n, s.uuid)]), SingBoxOutbound);
            && |outs| == |ins|
            && forall k :: 0 <= k < |ins| ==> outs[k].server == n.address && Reaches(outs[k], ins[k])
  {
    var ins := ServerConfig.SingBoxDocument(n, sorted).value.inbounds;
    var outs := Collect(Expanded([View(n, s.uuid)]), SingBoxOutbound);
    SingBoxRenders(n, sorted);
    ClientCompleteIffServerRenders(n, s.uuid, sorted);
    ListenersInOrder(n, sorted);
    assert s in multiset(sorted);
    forall k | 0 <= k < |ins| ensures outs[k].server == n.address && Reaches(outs[k], ins[k]) {
      OutboundAt(View(n, s.uuid), k);
      ViewShowsInbound(View(n, s.uuid), k);
      OutboundReaches(Inbounds(n)[k], ViewsOf(View(n, s.uuid))[k], sorted, s);
    }
  }

  lemma ListenersInOrder(n: Node, sorted: seq<Subscriber>)
    requires ServerConfig.SingBoxDocument(n, sorted).Some?
    ensures var ins := ServerConfig.SingBoxDocument(n, sorted).value.inbounds;
            |ins| == |Inbounds(n)| && forall k :: 0 <= k < |ins| ==>
                SingBoxListener(Inbounds(n)[k], sorted) == Some(ins[k])
  {
  }

  lemma OutboundAt(v: View, k: nat)
    requires AllSupported(v.node) && k < |Inbounds(v.node)|
    ensures var outs := Collect(Expanded([v]), SingBoxOutbound);
            |outs| == |Inbounds(v.node)| && SingBoxOutbound(ViewsOf(v)[k]) == Some(outs[k])
  {
    ClientCompleteIffSupported(v);
    ExpandOne(v);
    CollectAll(ViewsOf(v), SingBoxOutbound);
  }

  // ----- the same for Xray ----------------------------------------------------------------------

  /** A client outbound that reaches an Xray inbound: same type and port, and a client entry with its secret, flow
      and cipher. */
  predicate ReachesXray(o: Outbound, l: XrayInbound) {
    && o.kind == l.kind && o.port == l.port
    && exists j :: 0 <= j < |l.clients| && l.clients[j].secret == o.secret && l.clients[j].flow == o.flow
                && l.clients[j].cipher == o.cipher
  }

  lemma OutboundReachesXray(i: Inbound, v: View, sorted: seq<Subscriber>, s: Subscriber)
    requires Supported(i.protocol) && v.node.protocol == i.protocol && v.node.port == i.port
    requires s in sorted && s.uuid == v.uuid
    ensures ReachesXray(SingBoxOutbound(v).value, XrayListener(i, sorted).value)
  {
    var j :| 0 <= j < |sorted| && sorted[j] == s;
    assert XrayListener(i, sorted).value.clients[j] == XrayClient(i.protocol, s);
  }

  /** The sing-box subscription also fits a node served by Xray. */
  lemma XraySidesAgree(n: Node, s: Subscriber, subs: seq<Subscriber>, sorted: seq<Subscriber>)
    requires SortOf(sorted, subs) && s in subs && XrayDocument(n, sorted).Some?
    ensures var ins := XrayDocument(n, sorted).value.listeners;
            var outs := Collect(Expanded([View(n, s.uuid)]), SingBoxOutbound);
            |outs| == |ins| && forall k :: 0 <= k < |ins| ==> ReachesXray(outs[k], ins[k])
  {
    var ins := XrayDocument(n, sorted).value.listeners;
    var outs := Collect(Expanded([View(n, s.uuid)]), SingBoxOutbound);
    XrayRenders(n, sorted);
    ClientCompleteIffSupported(View(n, s.uuid));
    XrayInOrder(n, sorted);
    assert s in multiset(sorted);
    forall k | 0 <= k < |ins| ensures ReachesXray(outs[k], ins[k]) {
      OutboundAt(View(n, s.uuid), k);
      ViewShowsInbound(View(n, s.uuid), k);
      OutboundReachesXray(Inbounds(n)[k], ViewsOf(View(n, s.uuid))[k], sorted, s);
    }
  }

  lemma XrayInOrder(n: Node, sorted: seq<Subscriber>)
    requires XrayDocument(n, sorted).Some?
    ensures var ins := XrayDocument(n, sorted).value.listeners;
            |ins| == |Inbounds(n)| && forall k :: 0 <= k < |ins| ==>
                XrayListener(Inbounds(n)[k], sorted) == Some(ins[k])
  {
  }

  // ----- where the sides can part ------------------------------------------------------------------

  predicate UsesTls(p: Protocol) { p in {VlessReality, Trojan, Hysteria2} }

  /** The blob names the server the same way for both sides: a non-empty sni text; or an empty one and no server_name;
      or no sni, and the node's address as server_name; or an sni of another type that prints like server_name. */
  predicate NamesServer(tls: Blob, address: string) {
    var m := Fields(tls);
    if "sni" !in m then Text(m, "server_name") == address
    else if m["sni"].Str? then m["sni"].s != "" || Text(m, "server_name") == ""
    else Text(m, "server_name") == m["sni"].shown
  }

  /** Client and server expect the same TLS server name exactly when the inbound's blob names it for both; a blob with
      only a server_name leaves the client with the node's address. */
  lemma ServerNamesAgreeIff(i: Inbound, v: View, sorted: seq<Subscriber>)
    requires UsesTls(i.protocol) && v.node.protocol == i.protocol && v.node.tls == i.tls
    ensures SingBoxOutbound(v).value.tls.value.serverName == SingBoxListener(i, sorted).value.tls.value.serverName
            <==> NamesServer(i.tls, v.node.address)
  {
  }

  /** The short id a Reality client sends is one the server accepts exactly when the short_ids array holds it, or,
      without such an array, when sid is a non-empty text. */
  lemma ShortIdAcceptedIff(i: Inbound, v: View, sorted: seq<Subscriber>)
    requires i.protocol == VlessReality && v.node.protocol == i.protocol && v.node.tls == i.tls
    ensures var m := Fields(i.tls);
            SingBoxOutbound(v).value.tls.value.reality.value.shortId
              in SingBoxListener(i, sorted).value.tls.value.reality.value.shortIds
            <==> if "short_ids" in m && m["short_ids"].Strs? && m["short_ids"].items != []
                 then (if "sid" in m then Shown(m["sid"]) else "") in m["short_ids"].items
                 else "sid" in m && m["sid"].Str? && m["sid"].s != ""
  {
  }

  lemma BracketsDecide(n: string, p: string, q: string)
    ensures n + " [" + p + "]" == n + " [" + q + "]" <==> p == q
  {
    var s, t := n + " [" + p + "]", n + " [" + q + "]";
    if s == t {
      assert |p| == |q|;
      assert p == s[|n| + 2..|s| - 1] && q == t[|n| + 2..|t| - 1];
    }
  }

  /** A node's client entries have distinct names exactly when no two of its inbounds speak the same protocol. */
  lemma NamesDistinctIff(v: View)
    ensures (forall j, k :: 0 <= j < k < |ViewsOf(v)| ==> ViewsOf(v)[j].node.name != ViewsOf(v)[k].node.name)
            <==> (forall j, k :: 0 <= j < k < |Inbounds(v.node)| ==>
                    Name(Inbounds(v.node)[j].protocol) != Name(Inbounds(v.node)[k].protocol))
  {
    var ins, vs := Inbounds(v.node), ViewsOf(v);
    forall j, k | 0 <= j < k < |ins|
      ensures vs[j].node.name == vs[k].node.name <==> Name(ins[j].protocol) == Name(ins[k].protocol)
    {
      BracketsDecide(v.node.name, Name(ins[j].protocol), Name(ins[k].protocol));
    }
  }
}
