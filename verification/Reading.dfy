/** Built requests and received responses, read by the offsets of RFC 6887 and RFC 6886. */
module Reading {
  import opened Base
  import opened FlowKey
  import opened FlowMachine
  import opened Wire
  import opened Parser
  import Echo
  import OptionWalk

  /** A 16-bit number in network order. */
  function Num16(b: seq<Byte>, i: nat): nat
    requires i + 2 <= |b|
  {
    var x: int, y: int := b[i], b[i + 1];
    x * 0x100 + y
  }

  /** A 32-bit number in network order. */
  function Num32(b: seq<Byte>, i: nat): nat
    requires i + 4 <= |b|
  {
    Num16(b, i) * 0x1_0000 + Num16(b, i + 2)
  }

  lemma SliceIsNum(b: seq<Byte>, i: nat)
    ensures i + 2 <= |b| ==> FromBe16(b[i..i + 2]) == Num16(b, i)
    ensures i + 4 <= |b| ==> FromBe32(b[i..i + 4]) == Num32(b, i)
  {
    if i + 4 <= |b| {
      var c := b[i..i + 4];
      assert c[0] == b[i] && c[1] == b[i + 1] && c[2] == b[i + 2] && c[3] == b[i + 3];
    }
    if i + 2 <= |b| {
      var c := b[i..i + 2];
      assert c[0] == b[i] && c[1] == b[i + 1];
    }
  }

  // ------------------------------------------------------------ requests

  /** The common request header of section 7.1 of RFC 6887. */
  ghost predicate HeaderIs(b: seq<Byte>, version: Byte, op: Byte, lifetime: U32, client: Ip) {
    |b| >= 24 && b[0] == version && b[1] == op < 128 && b[2] == 0 && b[3] == 0 &&
    Num32(b, 4) == lifetime && b[8..24] == client
  }

  /** Where the opcode data goes on behind the nonce, which version 1 does not have. */
  function MappingAt(version: Byte): nat {
    if version == 2 then 36 else 24
  }

  /** The opcode data of sections 11.1 and 12.1 of RFC 6887 up to the external address. */
  ghost predicate MappingIs(b: seq<Byte>, version: Byte, kd: Key, ext: Ext) {
    var m := MappingAt(version);
    |b| >= m + 24 && (version == 2 ==> b[24..36] == kd.nonce) && b[m] == kd.proto &&
    Num16(b, m + 4) == kd.srcPort && Num16(b, m + 6) == ext.port && b[m + 8..m + 24] == ext.ip
  }

  /** The remote end in the opcode data of a PEER, section 12.1 of RFC 6887. */
  ghost predicate RemoteIs(b: seq<Byte>, version: Byte, kd: Key) {
    var m := MappingAt(version);
    |b| >= m + 44 && Num16(b, m + 24) == kd.dstPort && b[m + 28..m + 44] == kd.dstIp
  }

  lemma HeaderReads(version: Byte, r: Request, rest: seq<Byte>)
    requires r.kd.op < 128
    ensures HeaderIs(Header(version, r) + rest, version, r.kd.op, r.lifetime, r.kd.srcIp)
  {
    hide Be32, FromBe32;
    var h := Header(version, r);
    var b := h + rest;
    assert h[4..8] == Be32(r.lifetime) && h[8..24] == r.kd.srcIp;
    assert b[4..8] == h[4..8] && b[8..24] == h[8..24];
    Be32RoundTrip(r.lifetime);
    SliceIsNum(b, 4);
  }

  /** Whoever reads a built version 1 or 2 request by the standard's offsets gets the request back. */
  lemma RequestReadsBack(version: Byte, r: Request)
    requires version >= 1 && Build(version, r).Some?
    ensures var b := Build(version, r).value;
      HeaderIs(b, version, r.kd.op, r.lifetime, r.kd.srcIp) &&
      (r.kd.op != OP_ANNOUNCE ==> MappingIs(b, version, r.kd, r.ext)) &&
      (r.kd.op == OP_PEER ==> RemoteIs(b, version, r.kd))
  {
    hide Header, OpcodeData, EncodeAll, RequestOpts, U16At;
    var b := Build(version, r).value;
    if r.kd.op == OP_ANNOUNCE {
      HeaderReads(version, r, []);
      assert b + [] == b;
    } else {
      var h, tail := Header(version, r), EncodeAll(RequestOpts(version, r));
      assert b == h + OpcodeData(version, r) + tail;
      assert b == h + (OpcodeData(version, r) + tail);
      HeaderReads(version, r, OpcodeData(version, r) + tail);
      BodyReads(version, r, h, tail);
    }
  }

  lemma BodyReads(version: Byte, r: Request, h: seq<Byte>, tail: seq<Byte>)
    requires Echo.Mappable(version, r) && |h| == 24
    ensures var b := h + OpcodeData(version, r) + tail;
      MappingIs(b, version, r.kd, r.ext) && (r.kd.op == OP_PEER ==> RemoteIs(b, version, r.kd))
  {
    hide OpcodeData, FromBe16;
    var b, m := h + OpcodeData(version, r) + tail, MappingAt(version);
    Echo.OpcodeDataReads(version, r, h, tail);
    SliceIsNum(b, m + 4);
    SliceIsNum(b, m + 6);
    if r.kd.op == OP_PEER {
      Echo.RemoteReads(version, r, h, tail);
      SliceIsNum(b, m + 24);
    }
  }

  /** A NAT-PMP request by the offsets of sections 3.2 and 3.3 of RFC 6886. */
  lemma NatPmpReadsBack(r: Request)
    requires r.kd.op == 0 || (r.kd.op == 1 && (r.kd.proto == 6 || r.kd.proto == 17))
    ensures var b := Build(0, r).value;
      Build(0, r).Some? && |b| == (if r.kd.op == OP_ANNOUNCE then 2 else 12) && b[0] == 0 &&
      (r.kd.op == OP_ANNOUNCE ==> b[1] == 0) &&
      (r.kd.op == OP_MAP ==>
         b[1] == (if r.kd.proto == 17 then 1 else 2) && b[2] == 0 && b[3] == 0 &&
         Num16(b, 4) == r.kd.srcPort && Num16(b, 6) == r.ext.port && Num32(b, 8) == r.lifetime)
  {
    hide Be16, Be32, FromBe16, FromBe32;
    if r.kd.op == OP_MAP {
      var b := Build(0, r).value;
      assert b[4..6] == Be16(r.kd.srcPort) && b[6..8] == Be16(r.ext.port) && b[8..12] == Be32(r.lifetime);
      Be16RoundTrip(r.kd.srcPort);
      Be16RoundTrip(r.ext.port);
      Be32RoundTrip(r.lifetime);
      SliceIsNum(b, 4);
      SliceIsNum(b, 6);
      SliceIsNum(b, 8);
    }
  }

  // ----------------------------------------------------------- responses

  /** The fields of an accepted MAP or PEER response of version 1 or 2, by offset. */
  lemma ResponseReads(b: seq<Byte>)
    requires ValidMsg(b) && b[0] != 0 && Parse(b).Some?
    ensures var f, m := Parse(b).value, MappingAt(b[0]);
      f.version == b[0] && f.kd.op == b[1] % 128 && f.result == b[3] &&
      |b| >= 24 && f.lifetime == Num32(b, 4) && f.epoch == Num32(b, 8) &&
      (f.kd.op != OP_ANNOUNCE ==> MappingIs(b, b[0], f.kd, f.ext)) &&
      (f.kd.op == OP_PEER ==> RemoteIs(b, b[0], f.kd))
  {
    hide FromBe16, FromBe32;
    var m := MappingAt(b[0]);
    SliceIsNum(b, 4);
    SliceIsNum(b, 8);
    SliceIsNum(b, m + 4);
    SliceIsNum(b, m + 6);
    SliceIsNum(b, m + 24);
  }

  /** The fields of an accepted NAT-PMP response, by length and offset. */
  lemma NatPmpResponseReads(b: seq<Byte>)
    requires ValidMsg(b) && b[0] == 0 && Parse(b).Some?
    ensures var f := Parse(b).value;
      f.version == 0 && |b| >= 8 && f.epoch == Num32(b, 4) &&
      (|b| == 16 ==>
         f.kd.op == OP_MAP && f.kd.proto == (if b[1] % 128 == 1 then 17 else 6) && f.result == Num16(b, 2) &&
         f.kd.srcPort == Num16(b, 8) && f.ext.port == Num16(b, 10) && f.lifetime == Num32(b, 12)) &&
      (|b| == 12 ==> f.kd.op == OP_ANNOUNCE && f.result == b[3] && f.ext.ip[12..] == b[8..12]) &&
      (|b| == 8 ==> f.result == Num16(b, 2))
  {
    hide FromBe16, FromBe32;
    SliceIsNum(b, 2);
    SliceIsNum(b, 4);
    SliceIsNum(b, 8);
    SliceIsNum(b, 10);
    SliceIsNum(b, 12);
  }

  // ------------------------------------------------------------- options

  /** The options of fixed size that a request carries, in order, told from what is set on the flow. */
  function FixedList(o: Options): seq<Opt> {
    (if o.priority.Some? then [Opt(99, [o.priority.value.up, o.priority.value.down, 0, 0])] else []) + (
    (if o.filter.Some? then [Opt(3, FilterData(o.filter.value))] else []) + (
    (if o.preferFailure then [Opt(2, [])] else []) + Identifying(o)))
  }

  /** Those of them that say who asks and for whom. */
  function Identifying(o: Options): seq<Opt> {
    (if o.thirdParty.Some? then [Opt(1, o.thirdParty.value)] else []) + (
    (if o.deviceId.Some? then [Opt(96, o.deviceId.value)] else []) + (
    (if o.userId.Some? then [Opt(98, o.userId.value)] else []) +
    (if o.location.Some? then [Opt(97, o.location.value)] else [])))
  }

  /** The data of a FILTER option, section 13.3 of RFC 6887. */
  function FilterData(f: Filter): seq<Byte> {
    [0, f.prefix, f.port / 0x100, f.port % 0x100] + f.ip
  }

  lemma FilterIs(f: Filter)
    ensures FilterOpt(f) == Opt(3, FilterData(f))
  {
    assert [0, f.prefix] + Be16(f.port) == [0, f.prefix, f.port / 0x100, f.port % 0x100];
  }

  lemma PutIs(x: Option<Opt>, rest: seq<Opt>)
    ensures Put(x, rest) == (if x.Some? then [x.value] else []) + rest
  {
    assert [] + rest == rest;
  }

  lemma IdentifyingAreListed(o: Options)
    ensures FixedOpts(o, 3) == Identifying(o)
  {
    hide Put;
    assert FixedOpts(o, 7) == [];
    PutIs(Slot(o, 6), []);
    assert FixedOpts(o, 6) == (if o.location.Some? then [Opt(97, o.location.value)] else []);
    PutIs(Slot(o, 5), FixedOpts(o, 6));
    PutIs(Slot(o, 4), FixedOpts(o, 5));
    PutIs(Slot(o, 3), FixedOpts(o, 4));
  }

  lemma FixedAreListed(o: Options)
    ensures FixedOpts(o, 0) == FixedList(o)
  {
    hide FilterOpt, FilterData, Put, Identifying;
    if o.filter.Some? { FilterIs(o.filter.value); }
    IdentifyingAreListed(o);
    PutIs(Slot(o, 2), FixedOpts(o, 3));
    PutIs(Slot(o, 1), FixedOpts(o, 2));
    PutIs(Slot(o, 0), FixedOpts(o, 1));
  }

  /** A METADATA option: the identifier, the value and zeros up to a multiple of four bytes. */
  ghost predicate MetadataIs(x: Opt, m: Md) {
    var n := |m.val|;
    x.code == 100 && n + 4 <= |x.data| < n + 8 && |x.data| % 4 == 0 &&
    Num32(x.data, 0) == m.id && x.data[4..4 + n] == m.val &&
    forall i :: 4 + n <= i < |x.data| ==> x.data[i] == 0
  }

  lemma MdOptReads(m: Md)
    ensures MetadataIs(MdOpt(m), m)
  {
    hide Be32, FromBe32;
    var d := MdOpt(m).data;
    assert d[0..4] == Be32(m.id);
    Be32RoundTrip(m.id);
    SliceIsNum(d, 0);
  }

  /** The set metadata values in list order. */
  function SetValues(md: MdList): MdList {
    if md == [] then [] else
      var rest: MdList := md[1..];
      if |md[0].val| == 0 then SetValues(rest) else [md[0]] + SetValues(rest)
  }

  /** What the metadata options of a list take together. */
  function MdRoom(md: MdList): nat {
    if md == [] then 0 else
      var rest: MdList := md[1..];
      8 + |md[0].val| + Padding(|md[0].val|) + MdRoom(rest)
  }

  /** As long as they fit into the message, every set metadata value is written, in order. */
  lemma {:induction false} MdOptsRead(md: MdList, at: nat)
    requires at + MdRoom(SetValues(md)) <= 1100
    ensures var s, v := MdOpts(md, at), SetValues(md);
      |s| == |v| && forall i :: 0 <= i < |s| ==> MetadataIs(s[i], v[i])
  {
    hide MdOpt, MetadataIs;
    if md != [] {
      var rest: MdList := md[1..];
      if |md[0].val| == 0 {
        MdOptsRead(rest, at);
      } else {
        assert SetValues(md)[1..] == SetValues(rest);
        var o := MdOpt(md[0]);
        MdOptReads(md[0]);
        MdOptsRead(rest, at + Size(o));
        PutIs(Some(o), MdOpts(rest, at + Size(o)));
      }
    }
  }

  /** Option o at offset p of msg, by section 7.3 of RFC 6887. */
  ghost predicate OptionAt(msg: seq<Byte>, p: nat, o: Opt) {
    p + 4 + |o.data| <= |msg| && msg[p] == o.code && msg[p + 1] == 0 && Num16(msg, p + 2) == |o.data| &&
    msg[p + 4..p + 4 + |o.data|] == o.data
  }

  lemma OneOptionAt(msg: seq<Byte>, p: nat, o: Opt)
    requires OptOk(o) && p + Size(o) <= |msg| && msg[p..p + Size(o)] == Encode(o)
    ensures OptionAt(msg, p, o)
  {
    OptionWalk.EncodedOne(msg, p, o);
    SliceIsNum(msg, p + 2);
    hide FromBe16, Num16;
    assert msg[p + 1] == msg[p..p + Size(o)][1];
  }

  /** Each option of the list lies in msg at its offset. */
  ghost predicate OptionsAt(msg: seq<Byte>, l: seq<(nat, Opt)>) {
    forall k :: 0 <= k < |l| ==> OptionAt(msg, l[k].0, l[k].1)
  }

  /** Encoded options lie one behind the other, each in that form. */
  lemma {:induction false} OptionsLie(msg: seq<Byte>, at: nat, opts: seq<Opt>)
    requires OptionWalk.EncodedAt(msg, at, opts)
    ensures OptionsAt(msg, OptionWalk.Placed(opts, at))
    decreases |opts|
  {
    hide Encode, EncodeAll, OptionAt;
    if opts != [] {
      OptionWalk.EncodedSplit(msg, at, opts);
      OneOptionAt(msg, at, opts[0]);
      OptionsLie(msg, at + Size(opts[0]), opts[1..]);
    }
  }

  /** A reader that follows the options' lengths finds those set on the flow, and behind them the metadata. */
  lemma OptionsAreSent(version: Byte, r: Request)
    ensures var at := BodySize(version, r.kd.op);
      var md := MdOpts(r.opts.md, at + TotalSize(FixedList(r.opts)));
      var l := OptionWalk.Placed(FixedList(r.opts) + md, at);
      OptionWalk.WalkByLength(PcpRequest(version, r), at) == Some(l) &&
      OptionsAt(PcpRequest(version, r), l)
  {
    hide Put, EncodeAll, MdOpts, OptionWalk.WalkByLength, OptionWalk.Placed, FixedList, FixedOpts, TotalSize, PcpRequest, OptionsAt;
    OptionWalk.OptionsReadBack(version, r);
    FixedAreListed(r.opts);
    OptionWalk.RequestEncodes(version, r, []);
    assert PcpRequest(version, r) + [] == PcpRequest(version, r);
    OptionsLie(PcpRequest(version, r), BodySize(version, r.kd.op), RequestOpts(version, r));
  }
}
