/** The fields of rendered server and client entries, one by one, by the keys of the blobs they come from. */
module ConfigFields {
  import opened Wrappers
  import opened Nodes
  import opened ServerConfig
  import opened ClientConfig
  import Decimal

  // ----- reading a blob ---------------------------------------------------------------------------

  /** The blob is an object that gives this key a non-empty string. */
  predicate Says(b: Blob, key: string, s: string) {
    b.Object? && key in b.fields && b.fields[key] == Str(s) && s != ""
  }

  predicate Silent(b: Blob, key: string) {
    b.Object? && key in b.fields && b.fields[key].Str? ==> b.fields[key].s == ""
  }

  /** What a server takes from a key: its string, or nothing. */
  predicate Taken(b: Blob, key: string, o: Option<string>) {
    match o case Some(s) => Says(b, key, s) case None => Silent(b, key)
  }

  /** The server name: under sni, else under server_name, else empty. */
  predicate ServerNamed(b: Blob, name: string) {
    || Says(b, "sni", name)
    || (Silent(b, "sni") && Says(b, "server_name", name))
    || (Silent(b, "sni") && Silent(b, "server_name") && name == "")
  }

  /** What a client takes from a key: the text its value prints as, or a default when the key is missing. */
  predicate Printed(b: Blob, key: string, d: string, s: string) {
    if b.Object? && key in b.fields then
      s == (match b.fields[key] case Str(t) => t case Strs(_, t) => t case Other(t) => t)
    else s == d
  }

  // ----- servers --------------------------------------------------------------------------------------

  /** A tag, or "in-" and the protocol when there is none. */
  predicate TaggedAs(i: Inbound, tag: string) {
    if i.tag == "" then tag == "in-" + Name(i.protocol) else tag == i.tag
  }

  lemma SingBoxCommonFields(i: Inbound, subs: seq<Subscriber>)
    requires Supported(i.protocol)
    ensures var r := SingBoxListener(i, subs);
            && r.Some? && TaggedAs(i, r.value.tag) && r.value.port == i.port && |r.value.users| == |subs|
            && (forall k :: 0 <= k < |subs| ==> r.value.users[k].name == "u" + Decimal.Digits(subs[k].id))
            && (i.protocol == VlessReality ==> forall k :: 0 <= k < |subs| ==>
                  r.value.users[k].secret == Uuid(subs[k].uuid) && r.value.users[k].flow == Some("xtls-rprx-vision"))
            && (i.protocol != VlessReality ==> forall k :: 0 <= k < |subs| ==>
                  r.value.users[k].secret == Password(subs[k].uuid) && r.value.users[k].flow == None)
            && (r.value.transport.None? <==> i.transport in {"", "tcp"})
            && (r.value.transport.Some? ==> var t := r.value.transport.value;
                  && "type" in t && t["type"] == Str(i.transport)
                  && (forall key :: key in t && key != "type" ==>
                        i.trans.Object? && key in i.trans.fields && t[key] == i.trans.fields[key])
                  && (i.trans.Object? ==> forall key :: key in i.trans.fields ==> key in t))
  {
  }

  /** Reality: the server names itself and its handshake alike, with the private key and the accepted short ids:
      those of the array if it lists any, else the single one. */
  lemma SingBoxRealityFields(i: Inbound, subs: seq<Subscriber>)
    requires i.protocol == VlessReality
    ensures var r := SingBoxListener(i, subs);
            && r.Some? && r.value.kind == "vless" && r.value.cipher == None && r.value.tls.Some?
            && var t := r.value.tls.value;
               && ServerNamed(i.tls, t.serverName) && t.certificate == None && t.key == None
               && t.reality.Some? && t.reality.value.handshake == t.serverName
               && (Says(i.tls, "private_key", t.reality.value.privateKey) ||
                   (Silent(i.tls, "private_key") && t.reality.value.privateKey == ""))
               && if i.tls.Object? && "short_ids" in i.tls.fields && i.tls.fields["short_ids"].Strs? &&
                     i.tls.fields["short_ids"].items != []
                  then t.reality.value.shortIds == i.tls.fields["short_ids"].items
                  else (exists s :: Says(i.tls, "sid", s) && t.reality.value.shortIds == [s]) ||
                       (Silent(i.tls, "sid") && t.reality.value.shortIds == [])
  {
    if !Silent(i.tls, "sid") { assert Says(i.tls, "sid", i.tls.fields["sid"].s); }
  }

  /** Trojan and Hysteria2: certificate and key under their own keys. */
  lemma SingBoxTlsFields(i: Inbound, subs: seq<Subscriber>)
    requires i.protocol == Trojan || i.protocol == Hysteria2
    ensures var r := SingBoxListener(i, subs);
            && r.Some? && r.value.kind == (if i.protocol == Trojan then "trojan" else "hysteria2")
            && r.value.cipher == None && r.value.tls.Some?
            && var t := r.value.tls.value;
               && ServerNamed(i.tls, t.serverName) && t.reality == None
               && Taken(i.tls, "certificate_path", t.certificate) && Taken(i.tls, "key_path", t.key)
  {
  }

  lemma SingBoxShadowsocksFields(i: Inbound, subs: seq<Subscriber>)
    requires i.protocol == Ss2022
    ensures var r := SingBoxListener(i, subs);
            && r.Some? && r.value.kind == "shadowsocks" && r.value.cipher == Some("2022-blake3-aes-128-gcm")
            && r.value.tls == None
  {
  }

  lemma XrayFields(i: Inbound, subs: seq<Subscriber>)
    requires Supported(i.protocol)
    ensures var r := XrayListener(i, subs);
            && r.Some? && TaggedAs(i, r.value.tag) && r.value.port == i.port && |r.value.clients| == |subs|
            && r.value.kind == (match i.protocol case VlessReality => "vless" case Trojan => "trojan"
                                case Hysteria2 => "hysteria2" case _ => "shadowsocks")
            && (forall k :: 0 <= k < |subs| ==> r.value.clients[k].name == "u" + Decimal.Digits(subs[k].id))
            && (forall k :: 0 <= k < |subs| ==>
                  r.value.clients[k].secret
                  == if i.protocol == VlessReality then Uuid(subs[k].uuid) else Password(subs[k].uuid))
            && (forall k :: 0 <= k < |subs| ==>
                  r.value.clients[k].flow == if i.protocol == VlessReality then Some("xtls-rprx-vision") else None)
            && (forall k :: 0 <= k < |subs| ==>
                  r.value.clients[k].cipher == if i.protocol == Ss2022 then Some("2022-blake3-aes-128-gcm") else None)
            && (r.value.stream.Some? <==> i.tls.Object?)
            && (r.value.stream.Some? ==> var s := r.value.stream.value;
                  && s.settings == i.tls.fields
                  && s.network == (if i.transport == "" then "tcp" else i.transport)
                  && s.security == (match i.protocol case VlessReality => "reality" case Trojan => "tls"
                                    case _ => "none"))
  {
  }

  /** The primary inbound with the node's own fields, then every declared one with its own; a missing tag names protocol
      and port. */
  lemma InboundFields(n: Node)
    ensures var ins := Inbounds(n); var extra := if n.extra.Some? then n.extra.value else [];
            && |ins| == 1 + |extra|
            && ins[0] == Inbound("in-" + Name(n.protocol), n.protocol, n.port, n.transport, n.tls, n.trans)
            && forall k :: 0 <= k < |extra| ==>
                 && ins[k + 1].protocol == extra[k].protocol && ins[k + 1].port == extra[k].port
                 && ins[k + 1].transport == extra[k].transport && ins[k + 1].tls == extra[k].tls
                 && ins[k + 1].trans == extra[k].trans
                 && ins[k + 1].tag == (if extra[k].tag != "" then extra[k].tag
                                       else "in-" + Name(extra[k].protocol) + "-" + Decimal.Digits(extra[k].port))
  {
  }

  // ----- clients ---------------------------------------------------------------------------------------

  lemma OutboundFields(v: View)
    ensures var n, r := v.node, SingBoxOutbound(v);
            && (r.Some? <==> !n.protocol.Unknown?)
            && (r.Some? ==>
                  && r.value.tag == n.name && r.value.server == n.address && r.value.port == n.port
                  && r.value.kind == (match n.protocol case VlessReality => "vless" case Trojan => "trojan"
                                      case Hysteria2 => "hysteria2" case _ => "shadowsocks")
                  && r.value.secret == (if n.protocol == VlessReality then Uuid(v.uuid) else Password(v.uuid))
                  && r.value.flow == (if n.protocol == VlessReality then Some("xtls-rprx-vision") else None)
                  && r.value.cipher == (if n.protocol == Ss2022 then Some("2022-blake3-aes-128-gcm") else None)
                  && (r.value.tls.Some? <==> n.protocol != Ss2022))
            && (r.Some? && r.value.tls.Some? ==>
                  && Printed(n.tls, "sni", n.address, r.value.tls.value.serverName)
                  && (r.value.tls.value.reality.Some? <==> n.protocol == VlessReality))
            && (n.protocol == VlessReality ==> var c := r.value.tls.value.reality.value;
                  && Printed(n.tls, "pbk", "", c.publicKey) && Printed(n.tls, "sid", "", c.shortId)
                  && Printed(n.tls, "fp", "chrome", c.fingerprint))
  {
  }

  lemma ProxyFields(v: View)
    ensures var n, r := v.node, ClashProxy(v);
            && (r.Some? <==> !n.protocol.Unknown?)
            && (r.Some? ==>
                  && r.value.name == n.name && r.value.server == n.address && r.value.port == n.port
                  && r.value.kind == (match n.protocol case VlessReality => "vless" case Trojan => "trojan"
                                      case Hysteria2 => "hysteria2" case _ => "ss")
                  && r.value.secret == (if n.protocol == VlessReality then Uuid(v.uuid) else Password(v.uuid))
                  && r.value.flow == (if n.protocol == VlessReality then Some("xtls-rprx-vision") else None)
                  && r.value.cipher == (if n.protocol == Ss2022 then Some("2022-blake3-aes-128-gcm") else None)
                  && r.value.network == (if n.protocol == VlessReality || n.protocol == Trojan
                                         then Some(if n.transport == "" then "tcp" else n.transport) else None)
                  && (r.value.sni.Some? <==> n.protocol != Ss2022)
                  && (r.value.sni.Some? ==> Printed(n.tls, "sni", n.address, r.value.sni.value))
                  && (r.value.reality.Some? <==> n.protocol == VlessReality)
                  && (r.value.fingerprint.Some? <==> n.protocol == VlessReality))
            && (n.protocol == VlessReality ==>
                  && r.value.reality == Some(if n.tls.Object? then n.tls.fields else map[])
                  && Printed(n.tls, "fp", "chrome", r.value.fingerprint.value))
  {
  }

  /** A parameter of a share link: what the transport blob prints under it, else the TLS blob, else the fixed one. */
  predicate Param(trans: Blob, tls: Blob, key: string, fixed: Option<string>, params: map<string, string>) {
    if trans.Object? && key in trans.fields then key in params && params[key] == Shown(trans.fields[key])
    else if tls.Object? && key in tls.fields then key in params && params[key] == Shown(tls.fields[key])
    else match fixed case Some(s) => key in params && params[key] == s case None => key !in params
  }

  /** What a share link carries when no blob says otherwise. */
  function Fixed(n: Node, key: string): Option<string> {
    if key == "encryption" && n.protocol == VlessReality then Some("none")
    else if key == "security" && n.protocol == VlessReality then Some("reality")
    else if key == "security" && n.protocol == Trojan then Some("tls")
    else if key == "type" && (n.protocol == VlessReality || n.protocol == Trojan)
      then Some(if n.transport == "" then "tcp" else n.transport)
    else None
  }

  lemma LinkFields(v: View, key: string)
    ensures var n, r := v.node, ShareLink(v);
            && (r.Some? <==> !n.protocol.Unknown?)
            && (r.Some? ==>
                  && r.value.name == n.name && r.value.host == n.address && r.value.port == n.port
                  && r.value.scheme == (match n.protocol case VlessReality => "vless" case Trojan => "trojan"
                                        case Hysteria2 => "hysteria2" case _ => "ss")
                  && r.value.user == (if n.protocol == Ss2022 then WithCipher("2022-blake3-aes-128-gcm", v.uuid)
                                      else Bare(v.uuid)))
            && (n.protocol == VlessReality || n.protocol == Trojan ==>
                  Param(n.trans, n.tls, key, Fixed(n, key), r.value.params))
            && (n.protocol == Hysteria2 ==> Param(Absent, n.tls, key, None, r.value.params))
            && (n.protocol == Ss2022 ==> r.value.params == map[])
  {
  }

  /** A node with one inbound is shown as it is; one with more as one view per inbound, each with that inbound's
      fields and its protocol in the name. */
  lemma ViewFields(v: View)
    ensures var ins, vs := Inbounds(v.node), ViewsOf(v);
            && |vs| == |ins| && (|ins| == 1 ==> vs == [v])
            && (|ins| > 1 ==> forall k :: 0 <= k < |ins| ==> var w := vs[k];
                  && w.uuid == v.uuid && w.node.address == v.node.address
                  && w.node.protocol == ins[k].protocol && w.node.port == ins[k].port
                  && w.node.transport == ins[k].transport && w.node.tls == ins[k].tls && w.node.trans == ins[k].trans
                  && w.node.name == v.node.name + " [" + Name(ins[k].protocol) + "]")
  {
  }

  // ----- whole documents ------------------------------------------------------------------------------------

  /** A document holds one listener per inbound, in order, each as built for the same subscribers; the statistics of a
      sing-box one name every subscriber. */
  lemma DocumentFields(n: Node, subs: seq<Subscriber>)
    ensures var r := ServerConfig.SingBoxDocument(n, subs);
            r.Some? ==>
              && r.value.SingBox? && |r.value.inbounds| == |Inbounds(n)| && |r.value.stats| == |subs|
              && (forall k :: 0 <= k < |Inbounds(n)| ==>
                    SingBoxListener(Inbounds(n)[k], subs) == Some(r.value.inbounds[k]))
              && (forall k :: 0 <= k < |subs| ==> r.value.stats[k] == "u" + Decimal.Digits(subs[k].id))
    ensures var r := XrayDocument(n, subs);
            r.Some? ==>
              && r.value.Xray? && |r.value.listeners| == |Inbounds(n)|
              && (forall k :: 0 <= k < |Inbounds(n)| ==>
                    XrayListener(Inbounds(n)[k], subs) == Some(r.value.listeners[k]))
  {
    hide SingBoxListener, XrayListener, Inbounds;
  }
}
