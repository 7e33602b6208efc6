/** Server configurations: what a node listens on and whom it lets in, for sing-box and for Xray. */
module ServerConfig {
  import opened Wrappers
  import opened Nodes
  import Decimal

  datatype Subscriber = Subscriber(id: nat, uuid: string)

  datatype Secret = Uuid(s: string) | Password(s: string)

  datatype User = User(name: string, secret: Secret, flow: Option<string>, cipher: Option<string>)

  datatype Reality = Reality(handshake: string, privateKey: string, shortIds: seq<string>)

  datatype Tls = Tls(serverName: string, reality: Option<Reality>, certificate: Option<string>, key: Option<string>)

  datatype SingBoxInbound = SingBoxInbound(kind: string, tag: string, port: Port, users: seq<User>,
                                           cipher: Option<string>,
                                           tls: Option<Tls>, transport: Option<map<string, Json>>)

  datatype Stream = Stream(network: string, security: string, settings: map<string, Json>)

  datatype XrayInbound = XrayInbound(kind: string, tag: string, port: Port, clients: seq<User>,
                                     stream: Option<Stream>)

  /** The parts of a rendered document that depend on the node and its subscribers. */
  datatype Config = SingBox(inbounds: seq<SingBoxInbound>, stats: seq<string>) | Xray(listeners: seq<XrayInbound>)

  const CIPHER := "2022-blake3-aes-128-gcm"
  const VISION := "xtls-rprx-vision"

  function UserEmail(id: nat): string { "u" + Decimal.Digits(id) }

  // ----- order of the subscribers --------------------------------------------------------

  predicate InOrder(subs: seq<Subscriber>) { forall i, j :: 0 <= i < j < |subs| ==> subs[i].id <= subs[j].id }

  /** An order sort.Slice may leave: ascending ids, nothing added or lost. */
  predicate SortOf(sorted: seq<Subscriber>, subs: seq<Subscriber>) {
    InOrder(sorted) && multiset(sorted) == multiset(subs)
  }

  // ----- sing-box --------------------------------------------------------------------------

  function SingBoxUser(protocol: Protocol, s: Subscriber): User {
    if protocol == VlessReality then User(UserEmail(s.id), Uuid(s.uuid), Some(VISION), None)
    else User(UserEmail(s.id), Password(s.uuid), None, None)
  }

  function Each<T>(subs: seq<Subscriber>, f: Subscriber -> T): (out: seq<T>)
    ensures |out| == |subs| && forall i :: 0 <= i < |subs| ==> out[i] == f(subs[i])
  {
    if subs == [] then [] else Each(subs[..|subs| - 1], f) + [f(subs[|subs| - 1])]
  }

  /** singBoxUsers; nothing for a protocol it does not know. */
  method SingBoxUsers(protocol: Protocol, subs: seq<Subscriber>) returns (out: Option<seq<User>>)
    ensures out == if Supported(protocol) then Some(Each(subs, s => SingBoxUser(protocol, s))) else None
  {
    if protocol.Unknown? { return None; }
    var users: seq<User> := [];
    var i := 0;
    while i < |subs|
      invariant i <= |subs|
      invariant users == Each(subs[..i], s => SingBoxUser(protocol, s))
    {
      assert subs[..i + 1][..i] == subs[..i];
      var s := subs[i];
      if protocol == VlessReality {
        users := users + [User(UserEmail(s.id), Uuid(s.uuid), Some(VISION), None)];
      } else {
        users := users + [User(UserEmail(s.id), Password(s.uuid), None, None)];
      }
      i := i + 1;
    }
    assert subs[..|subs|] == subs;
    out := Some(users);
  }

  /** A field read as a string: empty when missing or of another type. */
  function Text(m: map<string, Json>, key: string): string {
    if key in m && m[key].Str? then m[key].s else ""
  }

  function ServerName(tls: Blob): string { EmptyOr(Text(Fields(tls), "sni"), Text(Fields(tls), "server_name")) }

  /** The accepted short ids: the short_ids array when it has any, else the single sid. */
  function ShortIds(tls: Blob): seq<string> {
    var m := Fields(tls);
    if "short_ids" in m && m["short_ids"].Strs? && m["short_ids"].items != [] then m["short_ids"].items
    else if Text(m, "sid") != "" then [Text(m, "sid")] else []
  }

  function RealityTls(i: Inbound): Tls {
    Tls(ServerName(i.tls), Some(Reality(ServerName(i.tls), Text(Fields(i.tls), "private_key"), ShortIds(i.tls))),
        None, None)
  }

  function NonEmpty(s: string): Option<string> { if s == "" then None else Some(s) }

  function StandardTls(i: Inbound): Tls {
    Tls(ServerName(i.tls), None, NonEmpty(Text(Fields(i.tls), "certificate_path")),
        NonEmpty(Text(Fields(i.tls), "key_path")))
  }

  function Transport(i: Inbound): Option<map<string, Json>> {
    if i.transport != "" && i.transport != "tcp" then Some(Fields(i.trans)["type" := Str(i.transport)]) else None
  }

  function SingBoxListener(i: Inbound, subs: seq<Subscriber>): Option<SingBoxInbound> {
    var users := Each(subs, s => SingBoxUser(i.protocol, s));
    var tag := EmptyOr(i.tag, "in-" + Name(i.protocol));
    if i.protocol == VlessReality then
      Some(SingBoxInbound("vless", tag, i.port, users, None, Some(RealityTls(i)), Transport(i)))
    else if i.protocol == Trojan then
      Some(SingBoxInbound("trojan", tag, i.port, users, None, Some(StandardTls(i)), Transport(i)))
    else if i.protocol == Hysteria2 then
      Some(SingBoxInbound("hysteria2", tag, i.port, users, None, Some(StandardTls(i)), Transport(i)))
    else if i.protocol == Ss2022 then
      Some(SingBoxInbound("shadowsocks", tag, i.port, users, Some(CIPHER), None, Transport(i)))
    else None
  }

  // ----- Xray ----------------------------------------------------------------------------------

  function XrayClient(protocol: Protocol, s: Subscriber): User {
    if protocol == VlessReality then User(UserEmail(s.id), Uuid(s.uuid), Some(VISION), None)
    else if protocol == Ss2022 then User(UserEmail(s.id), Password(s.uuid), None, Some(CIPHER))
    else User(UserEmail(s.id), Password(s.uuid), None, None)
  }

  function XrayProtocol(protocol: Protocol): string {
    if protocol == VlessReality then "vless"
    else if protocol == Trojan then "trojan"
    else if protocol == Hysteria2 then "hysteria2"
    else if protocol == Ss2022 then "shadowsocks"
    else Name(protocol)
  }

  function XraySecurity(protocol: Protocol): string {
    if protocol == VlessReality then "reality" else if protocol == Trojan then "tls" else "none"
  }

  function XrayListener(i: Inbound, subs: seq<Subscriber>): Option<XrayInbound> {
    if !Supported(i.protocol) then None
    else
      var stream := if i.tls.Object? then Some(Stream(EmptyOr(i.transport, "tcp"), XraySecurity(i.protocol),
          i.tls.fields)) else None;
      Some(XrayInbound(XrayProtocol(i.protocol), EmptyOr(i.tag, "in-" + Name(i.protocol)), i.port,
                       Each(subs, s => XrayClient(i.protocol, s)), stream))
  }

  // ----- whole documents --------------------------------------------------------------------------

  /** Every inbound built, or nothing when one cannot be. */
  function AllOf<T>(ins: seq<Inbound>, build: Inbound -> Option<T>): (out: Option<seq<T>>)
    ensures out.Some? <==> forall i :: 0 <= i < |ins| ==> build(ins[i]).Some?
    ensures out.Some? ==> |out.value| == |ins| && forall i :: 0 <= i < |ins| ==> build(ins[i]) == Some(out.value[i])
  {
    if ins == [] then Some([])
    else
      var rest := AllOf(ins[..|ins| - 1], build);
      var last := build(ins[|ins| - 1]);
      if rest.None? || last.None? then None else Some(rest.value + [last.value])
  }

  lemma AllOfNext<T>(ins: seq<Inbound>, k: nat, build: Inbound -> Option<T>, done: seq<T>)
    requires k < |ins| && AllOf(ins[..k], build) == Some(done)
    ensures match build(ins[k])
            case None => AllOf(ins, build) == None
            case Some(t) => AllOf(ins[..k + 1], build) == Some(done + [t])
  {
    assert ins[..k + 1][..k] == ins[..k];
  }

  function SingBoxDocument(n: Node, sorted: seq<Subscriber>): Option<Config> {
    match AllOf(Inbounds(n), i => SingBoxListener(i, sorted))
    case None => None
    case Some(ins) => Some(SingBox(ins, Each(sorted, (s: Subscriber) => UserEmail(s.id))))
  }

  function XrayDocument(n: Node, sorted: seq<Subscriber>): Option<Config> {
    match AllOf(Inbounds(n), i => XrayListener(i, sorted))
    case None => None
    case Some(ins) => Some(Xray(ins))
  }

  /** singBoxInbound: a common base, then what the protocol adds, then the transport. */
  method SingBoxInboundOf(i: Inbound, sorted: seq<Subscriber>) returns (r: Option<SingBoxInbound>)
    ensures r == SingBoxListener(i, sorted)
  {
    var users := SingBoxUsers(i.protocol, sorted);
    if users.None? { return None; }
    var base := SingBoxInbound("", EmptyOr(i.tag, "in-" + Name(i.protocol)), i.port, users.value, None, None, None);
    match i.protocol {
      case VlessReality => base := base.(kind := "vless", tls := Some(RealityTls(i)));
      case Trojan => base := base.(kind := "trojan", tls := Some(StandardTls(i)));
      case Hysteria2 => base := base.(kind := "hysteria2", tls := Some(StandardTls(i)));
      case Ss2022 => base := base.(kind := "shadowsocks", cipher := Some(CIPHER));
    }
    if i.transport != "" && i.transport != "tcp" {
      base := base.(transport := Some(Fields(i.trans)["type" := Str(i.transport)]));
    }
    r := Some(base);
  }

  /** RenderSingBox, given the order sort.Slice leaves the subscribers in: the first inbound that cannot be built
      aborts the render. */
  method RenderSingBox(n: Node, sorted: seq<Subscriber>) returns (r: Option<Config>)
    ensures r == SingBoxDocument(n, sorted)
  {
    hide SingBoxListener, Inbounds;
    var ins := AllInbounds(n);
    var inbounds: seq<SingBoxInbound> := [];
    var build := i => SingBoxListener(i, sorted);
    var k := 0;
    while k < |ins|
      invariant k <= |ins|
      invariant AllOf(ins[..k], build) == Some(inbounds)
    {
      AllOfNext(ins, k, build, inbounds);
      var built := SingBoxInboundOf(ins[k], sorted);
      if built.None? { return None; }
      inbounds := inbounds + [built.value];
      k := k + 1;
    }
    assert ins[..|ins|] == ins;
    r := Some(SingBox(inbounds, Each(sorted, (s: Subscriber) => UserEmail(s.id))));
  }

  /** xrayInbound: the clients are collected by a loop per protocol. */
  method XrayInboundOf(i: Inbound, sorted: seq<Subscriber>) returns (r: Option<XrayInbound>)
    ensures r == XrayListener(i, sorted)
  {
    if i.protocol.Unknown? { return None; }
    var clients: seq<User> := [];
    var k := 0;
    while k < |sorted|
      invariant k <= |sorted|
      invariant clients == Each(sorted[..k], s => XrayClient(i.protocol, s))
    {
      assert sorted[..k + 1][..k] == sorted[..k];
      var s := sorted[k];
      if i.protocol == VlessReality {
        clients := clients + [User(UserEmail(s.id), Uuid(s.uuid), Some(VISION), None)];
      } else if i.protocol == Ss2022 {
        clients := clients + [User(UserEmail(s.id), Password(s.uuid), None, Some(CIPHER))];
      } else {
        clients := clients + [User(UserEmail(s.id), Password(s.uuid), None, None)];
      }
      k := k + 1;
    }
    assert sorted[..|sorted|] == sorted;
    var inbound := XrayInbound(XrayProtocol(i.protocol), EmptyOr(i.tag, "in-" + Name(i.protocol)), i.port, clients,
        None);
    if i.tls.Object? {
      inbound := inbound.(stream := Some(Stream(EmptyOr(i.transport, "tcp"), XraySecurity(i.protocol), i.tls.fields)));
    }
    r := Some(inbound);
  }

  method RenderXray(n: Node, sorted: seq<Subscriber>) returns (r: Option<Config>)
    ensures r == XrayDocument(n, sorted)
  {
    hide XrayListener, Inbounds;
    var ins := AllInbounds(n);
    var inbounds: seq<XrayInbound> := [];
    var build := i => XrayListener(i, sorted);
    var k := 0;
    while k < |ins|
      invariant k <= |ins|
      invariant AllOf(ins[..k], build) == Some(inbounds)
    {
      AllOfNext(ins, k, build, inbounds);
      var built := XrayInboundOf(ins[k], sorted);
      if built.None? { return None; }
      inbounds := inbounds + [built.value];
      k := k + 1;
    }
    assert ins[..|ins|] == ins;
    r := Some(Xray(inbounds));
  }

  // ----- the order of the subscribers does not matter ------------------------------------------------

  predicate DistinctIds(subs: seq<Subscriber>) { forall i, j :: 0 <= i < j < |subs| ==> subs[i].id != subs[j].id }

  /** Subscribers with equal ids are equal. */
  predicate IdsDecide(subs: seq<Subscriber>) { forall s, t :: s in subs && t in subs && s.id == t.id ==> s == t }

  lemma Behead(a: seq<Subscriber>)
    requires a != []
    ensures multiset(a[1..]) == multiset(a) - multiset{a[0]}
  {
    assert a == [a[0]] + a[1..];
  }

  lemma SameLength(a: seq<Subscriber>, b: seq<Subscriber>)
    requires multiset(a) == multiset(b)
    ensures |a| == |b|
  {
    assert |multiset(a)| == |a| && |multiset(b)| == |b|;
  }

  lemma {:induction false} SortsAgree(a: seq<Subscriber>, b: seq<Subscriber>)
    requires InOrder(a) && InOrder(b) && multiset(a) == multiset(b) && IdsDecide(a)
    ensures a == b
    decreases |a|
  {
    SameLength(a, b);
    if a != [] {
      SameHead(a, b);
      Behead(a);
      Behead(b);
      TailDecides(a);
      SortsAgree(a[1..], b[1..]);
      assert a == [a[0]] + a[1..];
    }
  }

  lemma TailDecides(a: seq<Subscriber>)
    requires a != [] && InOrder(a) && IdsDecide(a)
    ensures InOrder(a[1..]) && IdsDecide(a[1..])
  {
    forall s: Subscriber, t: Subscriber | s in a[1..] && t in a[1..] && s.id == t.id ensures s == t {
      assert s in a && t in a;
    }
  }

  lemma SameHead(a: seq<Subscriber>, b: seq<Subscriber>)
    requires a != [] && b != [] && InOrder(a) && InOrder(b) && multiset(a) == multiset(b) && IdsDecide(a)
    ensures a[0] == b[0]
  {
    assert a[0] in multiset(b) && b[0] in multiset(a);
    var i :| 0 <= i < |b| && b[i] == a[0];
    var j :| 0 <= j < |a| && a[j] == b[0];
    assert b[0].id <= b[i].id && a[0].id <= a[j].id;
    assert a[j] in a && a[0] in a;
  }

  /** The document a control plane renders for a node, for each order its database may list the subscribers in. */
  ghost predicate Renders(n: Node, singBox: bool, subs: seq<Subscriber>, doc: Option<Config>) {
    exists sorted :: SortOf(sorted, subs) && doc == if singBox then SingBoxDocument(n, sorted)
        else XrayDocument(n, sorted)
  }

  /** With distinct subscriber ids a rendered document depends on who subscribes, not on the order they come in. */
  lemma RenderIgnoresOrder(n: Node, singBox: bool, subs: seq<Subscriber>, others: seq<Subscriber>,
                           doc: Option<Config>, other: Option<Config>)
    requires DistinctIds(subs) && multiset(subs) == multiset(others)
    requires Renders(n, singBox, subs, doc) && Renders(n, singBox, others, other)
    ensures doc == other
  {
    var a :| SortOf(a, subs) && doc == if singBox then SingBoxDocument(n, a) else XrayDocument(n, a);
    var b :| SortOf(b, others) && other == if singBox then SingBoxDocument(n, b) else XrayDocument(n, b);
    forall s: Subscriber, t: Subscriber | s in a && t in a && s.id == t.id ensures s == t {
      assert s in multiset(subs) && t in multiset(subs);
      var i :| 0 <= i < |subs| && subs[i] == s;
      var j :| 0 <= j < |subs| && subs[j] == t;
      assert i == j;
    }
    SortsAgree(a, b);
  }
}
