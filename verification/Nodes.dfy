/** Nodes, their inbounds, and the JSON blobs they carry. */
module Nodes {
  import opened Wrappers
  import Decimal

  /** A protocol value: one of the four known ones, or any other text. */
  datatype Protocol = VlessReality | Trojan | Hysteria2 | Ss2022 | Unknown(text: string)

  function Name(p: Protocol): string {
    match p
    case VlessReality => "vless-reality"
    case Trojan => "trojan"
    case Hysteria2 => "hysteria2"
    case Ss2022 => "ss-2022"
    case Unknown(text) => text
  }

  /** A value in a decoded blob: a string, an array of strings, or anything else with the text it prints as. */
  datatype Json = Str(s: string) | Strs(items: seq<string>, shown: string) | Other(shown: string)

  /** A raw blob: empty, not an object, or an object with these fields. */
  datatype Blob = Absent | Malformed | Object(fields: map<string, Json>)

  type Port = p: nat | p < 0x1_0000_0000

  datatype Inbound = Inbound(tag: string, protocol: Protocol, port: Port, transport: string, tls: Blob, trans: Blob)

  /** extra is what the node's inbounds blob decodes to; none when it is empty or does not decode. */
  datatype Node = Node(name: string, address: string, protocol: Protocol, port: Port, transport: string,
                       tls: Blob, trans: Blob, extra: Option<seq<Inbound>>)

  function Fields(b: Blob): map<string, Json> { if b.Object? then b.fields else map[] }

  function Shown(j: Json): string { if j.Str? then j.s else j.shown }

  function EmptyOr(s: string, d: string): string { if s == "" then d else s }

  predicate Supported(protocol: Protocol) { !protocol.Unknown? }

  /** What is still to be written in front of a tail. */
  function Front(v: nat): string { if v == 0 then "" else Decimal.Digits(v) }

  lemma DigitMoves(v: nat, tail: string)
    requires v > 0
    ensures Front(v) + tail == Front(v / 10) + ([Decimal.DigitOf(v % 10)] + tail)
  {
    assert "" + [Decimal.DigitOf(v % 10)] == [Decimal.DigitOf(v % 10)];
  }

  lemma RoomLeft(v: nat, i: nat)
    requires 0 < v < Decimal.Pow10(i)
    ensures i > 0 && v / 10 < Decimal.Pow10(i - 1)
  {
  }

  method Put(buf: array<char>, i: nat, c: char)
    requires i < buf.Length
    modifies buf
    ensures buf[i..] == [c] + old(buf[i + 1..])
  {
    buf[i] := c;
  }

  lemma FrontEnds(u: nat)
    ensures Front(0) == "" && (u > 0 ==> Front(u) == Decimal.Digits(u))
  {
  }

  /** strconvUint: digits of an unsigned 64-bit number, written backwards into a 20-byte buffer. */
  method StrconvUint(u: nat) returns (s: string)
    requires u < 0x1_0000_0000_0000_0000
    ensures s == Decimal.Digits(u)
  {
    if u == 0 { return "0"; }
    hide Front, Decimal.Digits, Decimal.Pow10;
    var buf := new char[20];
    var i, v := 20, u;
    PowerOfTwenty();
    FrontEnds(u);
    while v > 0
      invariant 0 <= i <= 20
      invariant 0 <= v < Decimal.Pow10(i)
      invariant Front(u) == Front(v) + buf[i..]
      decreases v
    {
      RoomLeft(v, i);
      DigitMoves(v, buf[i..]);
      i := i - 1;
      Put(buf, i, Decimal.DigitOf(v % 10));
      v := v / 10;
    }
    s := buf[i..];
  }

  lemma PowerOfTwenty()
    ensures Decimal.Pow10(20) == 100000000000000000000
  {
    assert Decimal.Pow10(4) == 10000;
    assert Decimal.Pow10(8) == 100000000;
    assert Decimal.Pow10(12) == 1000000000000;
    assert Decimal.Pow10(16) == 10000000000000000;
  }

  function Primary(n: Node): Inbound {
    Inbound("in-" + Name(n.protocol), n.protocol, n.port, n.transport, n.tls, n.trans)
  }

  /** An extra inbound with its tag filled in. */
  function Tagged(i: Inbound): Inbound {
    if i.tag == "" then i.(tag := "in-" + Name(i.protocol) + "-" + Decimal.Digits(i.port)) else i
  }

  function Inbounds(n: Node): (ins: seq<Inbound>)
    ensures |ins| >= 1 && ins[0] == Primary(n)
  {
    [Primary(n)] + if n.extra.None? then []
        else seq(|n.extra.value|, i requires 0 <= i < |n.extra.value| => Tagged(n.extra.value[i]))
  }

  /** AllInbounds: the primary inbound, then the declared ones with missing tags filled in place. */
  method AllInbounds(n: Node) returns (out: seq<Inbound>)
    ensures out == Inbounds(n)
  {
    out := [Inbound("in-" + Name(n.protocol), n.protocol, n.port, n.transport, n.tls, n.trans)];
    if n.extra.None? { return; }
    var extra := n.extra.value;
    var i := 0;
    while i < |extra|
      invariant i <= |extra| == |n.extra.value|
      invariant forall j :: 0 <= j < i ==> extra[j] == Tagged(n.extra.value[j])
      invariant forall j :: i <= j < |extra| ==> extra[j] == n.extra.value[j]
    {
      if extra[i].tag == "" {
        var digits := StrconvUint(extra[i].port);
        extra := extra[i := extra[i].(tag := "in-" + Name(extra[i].protocol) + "-" + digits)];
      }
      i := i + 1;
    }
    out := out + extra;
  }
}
