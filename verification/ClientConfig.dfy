/** Subscriptions: the same nodes for sing-box, Clash and share-link clients. */
module ClientConfig {
  import opened Wrappers
  import opened Nodes
  import opened ServerConfig

  /** A node together with the secret of the user it is shown to. */
  datatype View = View(node: Node, uuid: string)

  datatype ClientReality = ClientReality(publicKey: string, shortId: string, fingerprint: string)

  datatype ClientTls = ClientTls(serverName: string, reality: Option<ClientReality>)

  datatype Outbound = Outbound(kind: string, tag: string, server: string, port: Port, secret: Secret,
                               flow: Option<string>, cipher: Option<string>, tls: Option<ClientTls>)

  datatype Proxy = Proxy(kind: string, name: string, server: string, port: Port, secret: Secret,
                         network: Option<string>,
                         flow: Option<string>, cipher: Option<string>, sni: Option<string>,
                         reality: Option<map<string, Json>>, fingerprint: Option<string>)

  datatype UserInfo = Bare(s: string) | WithCipher(cipher: string, s: string)

  datatype Link = Link(scheme: string, user: UserInfo, host: string, port: Port, params: map<string, string>,
                       name: string)

  // ----- one view per inbound -----------------------------------------------------------

  function Rewritten(v: View, i: Inbound): View {
    View(v.node.(protocol := i.protocol, port := i.port, transport := i.transport, tls := i.tls, trans := i.trans,
                 name := v.node.name + " [" + Name(i.protocol) + "]"), v.uuid)
  }

  function ViewsOf(v: View): (vs: seq<View>)
    ensures |vs| == |Inbounds(v.node)|
  {
    var ins := Inbounds(v.node);
    if |ins| <= 1 then [v] else seq(|ins|, k requires 0 <= k < |ins| => Rewritten(v, ins[k]))
  }

  function Expanded(views: seq<View>): seq<View> {
    if views == [] then [] else Expanded(views[..|views| - 1]) + ViewsOf(views[|views| - 1])
  }

  /** The body of expand's loop: a single-inbound node passes through, another becomes one view per inbound. */
  method ExpandNode(v: View) returns (out: seq<View>)
    ensures out == ViewsOf(v)
  {
    var ins := AllInbounds(v.node);
    if |ins| <= 1 { return [v]; }
    out := [];
    var k := 0;
    while k < |ins|
      invariant k <= |ins| == |ViewsOf(v)| && out == ViewsOf(v)[..k]
    {
      out := out + [Rewritten(v, ins[k])];
      k := k + 1;
    }
  }

  method Expand(views: seq<View>) returns (out: seq<View>)
    ensures out == Expanded(views)
  {
    out := [];
    var i := 0;
    while i < |views|
      invariant i <= |views| && out == Expanded(views[..i])
    {
      assert views[..i + 1][..i] == views[..i];
      var one := ExpandNode(views[i]);
      out := out + one;
      i := i + 1;
    }
    assert views[..|views|] == views;
  }

  // ----- one entry per view ---------------------------------------------------------------

  function ValueOr(m: map<string, Json>, key: string, d: string): string {
    if key in m then Shown(m[key]) else d
  }

  function SingBoxOutbound(v: View): Option<Outbound> {
    var n, m := v.node, Fields(v.node.tls);
    var sni := ValueOr(m, "sni", n.address);
    if n.protocol == VlessReality then
      Some(Outbound("vless", n.name, n.address, n.port, Uuid(v.uuid), Some(VISION), None,
           Some(ClientTls(sni, Some(ClientReality(ValueOr(m, "pbk", ""), ValueOr(m, "sid", ""),
               ValueOr(m, "fp", "chrome")))))))
    else if n.protocol == Trojan then
      Some(Outbound("trojan", n.name, n.address, n.port, Password(v.uuid), None, None, Some(ClientTls(sni, None))))
    else if n.protocol == Hysteria2 then
      Some(Outbound("hysteria2", n.name, n.address, n.port, Password(v.uuid), None, None, Some(ClientTls(sni, None))))
    else if n.protocol == Ss2022 then
      Some(Outbound("shadowsocks", n.name, n.address, n.port, Password(v.uuid), None, Some(CIPHER), None))
    else None
  }

  function ClashProxy(v: View): Option<Proxy> {
    var n, m := v.node, Fields(v.node.tls);
    var sni, net := Some(ValueOr(m, "sni", n.address)), Some(EmptyOr(n.transport, "tcp"));
    if n.protocol == VlessReality then
      Some(Proxy("vless", n.name, n.address, n.port, Uuid(v.uuid), net, Some(VISION), None, sni, Some(m),
                 Some(ValueOr(m, "fp", "chrome"))))
    else if n.protocol == Trojan then
      Some(Proxy("trojan", n.name, n.address, n.port, Password(v.uuid), net, None, None, sni, None, None))
    else if n.protocol == Hysteria2 then
      Some(Proxy("hysteria2", n.name, n.address, n.port, Password(v.uuid), None, None, None, sni, None, None))
    else if n.protocol == Ss2022 then
      Some(Proxy("ss", n.name, n.address, n.port, Password(v.uuid), None, None, Some(CIPHER), None, None, None))
    else None
  }

  /** mergeJSON: every field of the blob, as printed text, over the parameters set so far. */
  function Merge(params: map<string, string>, b: Blob): map<string, string> {
    params + map k | k in Fields(b) :: Shown(Fields(b)[k])
  }

  function ShareLink(v: View): Option<Link> {
    var n := v.node;
    var net := EmptyOr(n.transport, "tcp");
    if n.protocol == VlessReality then
      var p := map["encryption" := "none", "security" := "reality", "type" := net];
      Some(Link("vless", Bare(v.uuid), n.address, n.port, Merge(Merge(p, n.tls), n.trans), n.name))
    else if n.protocol == Trojan then
      var p := map["security" := "tls", "type" := net];
      Some(Link("trojan", Bare(v.uuid), n.address, n.port, Merge(Merge(p, n.tls), n.trans), n.name))
    else if n.protocol == Hysteria2 then
      Some(Link("hysteria2", Bare(v.uuid), n.address, n.port, Merge(map[], n.tls), n.name))
    else if n.protocol == Ss2022 then
      Some(Link("ss", WithCipher(CIPHER, v.uuid), n.address, n.port, map[], n.name))
    else None
  }

  /** The entries of the views that have one, in order. */
  function Collect<T>(views: seq<View>, f: View -> Option<T>): seq<T> {
    if views == [] then []
    else
      var last := f(views[|views| - 1]);
      Collect(views[..|views| - 1], f) + if last.Some? then [last.value] else []
  }

  // ----- the three documents ------------------------------------------------------------------

  function Names<T>(entries: seq<T>, name: T -> string): (ns: seq<string>)
    ensures |ns| == |entries| && forall k :: 0 <= k < |entries| ==> ns[k] == name(entries[k])
  {
    if entries == [] then [] else Names(entries[..|entries| - 1], name) + [name(entries[|entries| - 1])]
  }

  /** Each format names an entry after its node. */
  ghost predicate NamesNodes<T>(entry: View -> Option<T>, name: T -> string) {
    forall v :: entry(v).Some? ==> name(entry(v).value) == v.node.name
  }

  /** Entries and names after the first i views. */
  ghost predicate Listed<T>(all: seq<View>, i: nat, entry: View -> Option<T>, name: T -> string, out: seq<T>,
                            names: seq<string>)
    requires i <= |all|
  {
    out == Collect(all[..i], entry) && names == Names(out, name)
  }

  lemma NoneListed<T>(all: seq<View>, entry: View -> Option<T>, name: T -> string)
    ensures Listed(all, 0, entry, name, [], [])
  {
    assert all[..0] == [];
  }

  lemma NextListed<T>(all: seq<View>, i: nat, entry: View -> Option<T>, name: T -> string, out: seq<T>,
                      names: seq<string>)
    requires i < |all| && NamesNodes(entry, name) && Listed(all, i, entry, name, out, names)
    ensures match entry(all[i])
            case None => Listed(all, i + 1, entry, name, out, names)
            case Some(e) => Listed(all, i + 1, entry, name, out + [e], names + [all[i].node.name])
  {
    assert all[..i + 1][..i] == all[..i];
    if entry(all[i]).Some? { assert (out + [entry(all[i]).value])[..|out|] == out; }
  }

  lemma AllListed<T>(all: seq<View>, entry: View -> Option<T>, name: T -> string, out: seq<T>, names: seq<string>)
    requires Listed(all, |all|, entry, name, out, names)
    ensures out == Collect(all, entry) && names == Names(out, name)
  {
    assert all[..|all|] == all;
  }

  /** The loop all three generators share: views without an entry are passed over, names follow the entries. */
  method Generate<T>(views: seq<View>, entry: View -> Option<T>, name: T -> string)
    returns (out: seq<T>, names: seq<string>)
    requires NamesNodes(entry, name)
    ensures out == Collect(Expanded(views), entry)
    ensures names == Names(out, name)
  {
    hide *;
    var all := Expand(views);
    out, names := [], [];
    NoneListed(all, entry, name);
    var i := 0;
    while i < |all|
      invariant i <= |all| && Listed(all, i, entry, name, out, names)
    {
      NextListed(all, i, entry, name, out, names);
      var e := entry(all[i]);
      if e.Some? {
        out, names := out + [e.value], names + [all[i].node.name];
      }
      i := i + 1;
    }
    AllListed(all, entry, name, out, names);
  }

  function OutboundTag(o: Outbound): string { o.tag }
  function ProxyName(p: Proxy): string { p.name }
  function LinkName(l: Link): string { l.name }

  /** Each format names an entry after its node. */
  lemma EntriesNamed(v: View)
    ensures SingBoxOutbound(v).Some? ==> OutboundTag(SingBoxOutbound(v).value) == v.node.name
    ensures ClashProxy(v).Some? ==> ProxyName(ClashProxy(v).value) == v.node.name
    ensures ShareLink(v).Some? ==> LinkName(ShareLink(v).value) == v.node.name
  {
  }

  /** SingBox: the outbounds and, in the same order, the tags the selector offers. */
  method SingBoxDocument(views: seq<View>) returns (outs: seq<Outbound>, tags: seq<string>)
    ensures outs == Collect(Expanded(views), SingBoxOutbound)
    ensures |tags| == |outs| && forall k :: 0 <= k < |outs| ==> tags[k] == outs[k].tag
  {
    hide SingBoxOutbound, Collect, Expanded;
    forall v ensures SingBoxOutbound(v).Some? ==>
        OutboundTag(SingBoxOutbound(v).value) == v.node.name { EntriesNamed(v); }
    outs, tags := Generate(views, SingBoxOutbound, OutboundTag);
  }

  /** Clash: the proxies and, in the same order, the names the group selects from. */
  method ClashDocument(views: seq<View>) returns (proxies: seq<Proxy>, names: seq<string>)
    ensures proxies == Collect(Expanded(views), ClashProxy)
    ensures |names| == |proxies| && forall k :: 0 <= k < |proxies| ==> names[k] == proxies[k].name
  {
    hide ClashProxy, Collect, Expanded;
    forall v ensures ClashProxy(v).Some? ==> ProxyName(ClashProxy(v).value) == v.node.name { EntriesNamed(v); }
    proxies, names := Generate(views, ClashProxy, ProxyName);
  }

  /** V2Ray: one share link per supported view. */
  method ShareLinks(views: seq<View>) returns (links: seq<Link>)
    ensures links == Collect(Expanded(views), ShareLink)
  {
    hide ShareLink, Collect, Expanded;
    forall v ensures ShareLink(v).Some? ==> LinkName(ShareLink(v).value) == v.node.name { EntriesNamed(v); }
    var names;
    links, names := Generate(views, ShareLink, LinkName);
  }
}
