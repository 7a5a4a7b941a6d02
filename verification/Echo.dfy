/** The peer's side: create_response in place, and what parsing its echo of a request gives back. */
module Echo {
  import opened Base
  import opened FlowKey
  import opened FlowMachine
  import opened Wire
  import opened Parser

  // ------------------------------------------------------------ the peer

  /** b with `part` written over it from offset `at` on. */
  function Overwrite(b: seq<Byte>, at: nat, part: seq<Byte>): (r: seq<Byte>)
    requires at + |part| <= |b|
    ensures |r| == |b|
  {
    b[..at] + part + b[at + |part|..]
  }

  function SetResponseBit(x: Byte): Byte {
    if x < 128 then x + 128 else x
  }

  /** The answer's first 24 bytes: result, epoch and cleared reserved fields over the request header. */
  function Stamped(req: seq<Byte>, result: Byte, epoch: U32): (r: seq<Byte>)
    requires |req| >= 24
    ensures |r| == |req|
  {
    [req[0], SetResponseBit(req[1]), 0, result] + req[4..8] + Be32(epoch) + Zeros(12) + req[24..]
  }

  datatype PeerInfo = PeerInfo(version: Byte, ext: Ip, appBit: Byte, dscp: Byte)

  const OP_SADSCP: Byte := 3

  /** Where the learned DSCP of a SADSCP answer lies. */
  const DSCP_AT: nat := 36

  /** The application bit, shifted to the top of a byte, joined with the DSCP. */
  function DscpByte(peer: PeerInfo): Byte {
    if peer.dscp < 128 && peer.appBit % 2 == 1 then peer.dscp + 128 else peer.dscp
  }

  /** Where the external address of a MAP lies, by version. */
  function ExtAt(version: Byte): nat {
    if version == 1 then 32 else 44
  }

  /** The answer carries the peer's external address. */
  predicate Mapped(version: Byte, op: Byte) {
    op % 128 == OP_MAP && (version == 1 || version == 2)
  }

  /** There is room for the answer. */
  predicate Answerable(req: seq<Byte>) {
    |req| >= 24 && (Mapped(req[0], req[1]) ==> |req| >= ExtAt(req[0]) + 16) &&
    (req[1] % 128 == OP_SADSCP ==> |req| > DSCP_AT)
  }

  /** create_response. */
  function Respond(req: seq<Byte>, result: Byte, epoch: U32, peer: PeerInfo): (r: seq<Byte>)
    requires Answerable(req)
    ensures |r| == |req|
  {
    var r := Stamped(req, result, epoch);
    if result == 1 then r[0 := peer.version]
    else if Mapped(r[0], r[1]) then Overwrite(r, ExtAt(r[0]), peer.ext)
    else if r[1] % 128 == OP_SADSCP then r[DSCP_AT := DscpByte(peer)]
    else r
  }

  /** The peer answers in its receive buffer; what it sends back, the request's length of it, depends on the request alone. */
  lemma RespondInBuffer(buf: seq<Byte>, n: nat, result: Byte, epoch: U32, peer: PeerInfo)
    requires n <= |buf| && Answerable(buf[..n])
    ensures Answerable(buf) && Respond(buf, result, epoch, peer)[..n] == Respond(buf[..n], result, epoch, peer)
  {
    hide Be32;
    var req := buf[..n];
    assert buf[0] == req[0] && buf[1] == req[1] && buf[4..8] == req[4..8];
    assert Stamped(buf, result, epoch)[..n] == Stamped(req, result, epoch);
  }

  method Store(a: array<Byte>, at: nat, part: seq<Byte>)
    requires at + |part| <= a.Length
    modifies a
    ensures a[..] == Overwrite(old(a[..]), at, part)
  {
    var i := 0;
    while i < |part|
      invariant 0 <= i <= |part|
      invariant forall j :: 0 <= j < a.Length ==> a[j] == if at <= j < at + i then part[j - at] else old(a[j])
    {
      a[at + i] := part[i];
      i := i + 1;
    }
  }

  /** create_response on the packet buffer. */
  method CreateResponse(a: array<Byte>, result: Byte, epoch: U32, peer: PeerInfo)
    requires a.Length == MAX_LEN
    modifies a
    ensures Answerable(old(a[..])) && a[..] == Respond(old(a[..]), result, epoch, peer)
  {
    hide Be32;
    a[2] := 0;
    Store(a, 12, Zeros(12));
    a[1] := SetResponseBit(a[1]);
    a[3] := result;
    Store(a, 8, Be32(epoch));
    assert a[..] == Stamped(old(a[..]), result, epoch);
    if result == 1 {
      a[0] := peer.version;
      return;
    }
    if Mapped(a[0], a[1]) {
      Store(a, ExtAt(a[0]), peer.ext);
    }
    if a[1] % 128 == OP_SADSCP {
      a[DSCP_AT] := DscpByte(peer);
    }
  }

  // ---------------------------------------------------------- round trip

  /** The request with the peer's external address, where the answer carries it. */
  function Granted(r: Request, peer: PeerInfo): Request {
    if r.kd.op == OP_MAP then r.(ext := r.ext.(ip := peer.ext)) else r
  }

  function AnswerHeader(version: Byte, op: Byte, result: Byte, lifetime: U32, epoch: U32): (h: seq<Byte>)
    requires op < 128
    ensures |h| == 24
  {
    [version, op + 128, 0, result] + Be32(lifetime) + Be32(epoch) + Zeros(12)
  }

  predicate Mappable(version: Byte, r: Request) {
    (version == 1 || version == 2) && (r.kd.op == OP_MAP || r.kd.op == OP_PEER)
  }

  lemma RequestAnswerable(version: Byte, r: Request)
    requires Mappable(version, r)
    ensures var q := PcpRequest(version, r);
      Answerable(q) && q[0] == version && q[1] == r.kd.op && q[4..8] == Be32(r.lifetime)
  {
    hide OpcodeData, RequestOpts, EncodeAll, Be32;
    var q := PcpRequest(version, r);
    assert q[..24] == Header(version, r);
    assert Header(version, r)[4..8] == Be32(r.lifetime);
    assert q[0] == Header(version, r)[0] && q[1] == Header(version, r)[1];
    assert q[4..8] == q[..24][4..8];
  }

  /** Overwriting the external address in the opcode data of a MAP. */
  lemma OverwrittenMapping(version: Byte, r: Request, peer: PeerInfo, h: seq<Byte>, tail: seq<Byte>)
    requires (version == 1 || version == 2) && r.kd.op == OP_MAP && |h| == 24
    ensures Overwrite(h + OpcodeData(version, r) + tail, ExtAt(version), peer.ext) ==
            h + OpcodeData(version, Granted(r, peer)) + tail
  {
    hide Be16;
    var d, d' := OpcodeData(version, r), OpcodeData(version, Granted(r, peer));
    var k := ExtAt(version) - 24;
    assert d[..k] == d'[..k] && d' == d[..k] + peer.ext && |d| == k + 16;
    assert Overwrite(h + d + tail, ExtAt(version), peer.ext) == (h + d[..k]) + peer.ext + tail;
  }

  /** The peer's answer to a built request, part by part. */
  lemma AnswerShape(version: Byte, r: Request, result: Byte, epoch: U32, peer: PeerInfo)
    requires Mappable(version, r) && result != 1
    ensures Answerable(PcpRequest(version, r))
    ensures Respond(PcpRequest(version, r), result, epoch, peer) ==
            AnswerHeader(version, r.kd.op, result, r.lifetime, epoch) + OpcodeData(version, Granted(r, peer)) +
            EncodeAll(RequestOpts(version, r))
  {
    hide OpcodeData, RequestOpts, EncodeAll, Be32, Overwrite, Header;
    var q := PcpRequest(version, r);
    var h := AnswerHeader(version, r.kd.op, result, r.lifetime, epoch);
    var tail := EncodeAll(RequestOpts(version, r));
    RequestAnswerable(version, r);
    assert q[24..] == OpcodeData(version, r) + tail;
    assert Stamped(q, result, epoch) == h + OpcodeData(version, r) + tail;
    if r.kd.op == OP_MAP {
      OverwrittenMapping(version, r, peer, h, tail);
    }
  }

  /** What the answer's parser finds in the opcode data. */
  lemma OpcodeDataReads(version: Byte, r: Request, h: seq<Byte>, tail: seq<Byte>)
    requires Mappable(version, r) && |h| == 24
    ensures var b := h + OpcodeData(version, r) + tail; var m := if version == 2 then 36 else 24;
      |b| >= m + 24 && (version == 2 ==> b[24..36] == r.kd.nonce) && b[m] == r.kd.proto &&
      U16At(b, m + 4) == r.kd.srcPort && U16At(b, m + 6) == r.ext.port && b[m + 8..m + 24] == r.ext.ip
  {
    hide Be16, Remote;
    var b := h + OpcodeData(version, r) + tail;
    var m := if version == 2 then 36 else 24;
    assert version == 2 ==> b[24..36] == r.kd.nonce;
    var mp := Mapping(r.kd, r.ext);
    assert b[m..m + 24] == mp;
    MappingParts(r.kd, r.ext);
    hide Mapping, OpcodeData;
    assert b[m + 4..m + 6] == b[m..m + 24][4..6] && b[m + 6..m + 8] == b[m..m + 24][6..8];
    assert b[m + 8..m + 24] == b[m..m + 24][8..24] && b[m] == b[m..m + 24][0];
    Be16RoundTrip(r.kd.srcPort);
    Be16RoundTrip(r.ext.port);
  }

  lemma MappingParts(kd: Key, ext: Ext)
    ensures var mp := Mapping(kd, ext);
      mp[0] == kd.proto && mp[4..6] == Be16(kd.srcPort) && mp[6..8] == Be16(ext.port) && mp[8..24] == ext.ip
  {
    hide Be16;
  }

  lemma RemoteReads(version: Byte, r: Request, h: seq<Byte>, tail: seq<Byte>)
    requires Mappable(version, r) && |h| == 24 && r.kd.op == OP_PEER
    ensures var b := h + OpcodeData(version, r) + tail; var m := if version == 2 then 36 else 24;
      |b| >= m + 44 && U16At(b, m + 24) == r.kd.dstPort && b[m + 28..m + 44] == r.kd.dstIp
  {
    hide Be16, Mapping;
    var b := h + OpcodeData(version, r) + tail;
    var m := if version == 2 then 36 else 24;
    var rem := Remote(r.kd);
    assert b[m + 24..m + 44] == rem;
    assert rem[0..2] == Be16(r.kd.dstPort) && rem[4..20] == r.kd.dstIp;
    assert b[m + 24..m + 26] == b[m + 24..m + 44][0..2] && b[m + 28..m + 44] == b[m + 24..m + 44][4..20];
    Be16RoundTrip(r.kd.dstPort);
  }

  /** The key that parsing the echo of a request recovers; the rest comes from where it arrived. */
  function EchoedKey(version: Byte, kd: Key): Key {
    var k := BlankKey(kd.op).(proto := kd.proto, srcPort := kd.srcPort,
                              nonce := if version == 2 then kd.nonce else Zeros(12));
    if kd.op == OP_PEER then k.(dstIp := kd.dstIp, dstPort := kd.dstPort) else k
  }

  lemma HeaderReads(version: Byte, op: Byte, result: Byte, lifetime: U32, epoch: U32, rest: seq<Byte>)
    requires op < 128
    ensures var b := AnswerHeader(version, op, result, lifetime, epoch) + rest;
      b[0] == version && b[1] == op + 128 && b[3] == result && U32At(b, 4) == lifetime && U32At(b, 8) == epoch
  {
    hide Be32;
    var h := AnswerHeader(version, op, result, lifetime, epoch);
    var b := h + rest;
    assert h[4..8] == Be32(lifetime) && h[8..12] == Be32(epoch);
    assert b[4..8] == h[4..8] && b[8..12] == h[8..12];
    Be32RoundTrip(lifetime);
    Be32RoundTrip(epoch);
  }

  /**
   Parsing the peer's echo of a version 1 or 2 MAP or PEER request gives back the request's own
   key data, the peer's result and epoch, the requested lifetime and the external mapping.
   */
  lemma EchoParses(version: Byte, r: Request, result: Byte, epoch: U32, peer: PeerInfo)
    requires Mappable(version, r) && result != 1
    ensures Answerable(PcpRequest(version, r))
    ensures var b := Respond(PcpRequest(version, r), result, epoch, peer);
      ValidMsg(b) &&
      Parse(b) == Some(Fields(EchoedKey(version, r.kd), version, result, r.lifetime, epoch, Granted(r, peer).ext))
  {
    hide OpcodeData, RequestOpts, EncodeAll, AnswerHeader, PcpRequest, Respond, U16At, U32At;
    AnswerShape(version, r, result, epoch, peer);
    var g := Granted(r, peer);
    var h, tail := AnswerHeader(version, r.kd.op, result, r.lifetime, epoch), EncodeAll(RequestOpts(version, r));
    HeaderReads(version, r.kd.op, result, r.lifetime, epoch, OpcodeData(version, g) + tail);
    assert h + (OpcodeData(version, g) + tail) == h + OpcodeData(version, g) + tail;
    OpcodeDataReads(version, g, h, tail);
    if r.kd.op == OP_PEER {
      RemoteReads(version, g, h, tail);
    }
  }

  /**
   A refused version comes back under the peer's own version, with result 1. The client can read it
   exactly when the message is as long as that version's response must be, so never from version 0.
   */
  lemma RefusalParses(version: Byte, r: Request, epoch: U32, peer: PeerInfo)
    requires Mappable(version, r)
    ensures Answerable(PcpRequest(version, r))
    ensures var b := Respond(PcpRequest(version, r), 1, epoch, peer);
      var needed := (if peer.version == 2 then 60 else 48) + (if r.kd.op == OP_PEER then 20 else 0);
      (ValidMsg(b) <==> peer.version <= 2) &&
      (ValidMsg(b) ==>
         (Parse(b).Some? <==> peer.version > 0 && |b| >= needed) &&
         (Parse(b).Some? ==> Parse(b).value.version == peer.version && Parse(b).value.result == 1))
  {
    RequestAnswerable(version, r);
    hide PcpRequest, Respond, Parse, ValidMsg, RequestOpts, TotalSize;
    RefusalHead(PcpRequest(version, r), epoch, peer);
    RefusalReads(Respond(PcpRequest(version, r), 1, epoch, peer), r.kd.op);
  }

  lemma RefusalHead(q: seq<Byte>, epoch: U32, peer: PeerInfo)
    requires Answerable(q) && q[1] < 128
    ensures var b := Respond(q, 1, epoch, peer);
      |b| == |q| && b[0] == peer.version && b[1] == q[1] + 128 && b[3] == 1
  {
    hide Be32;
  }

  lemma RefusalReads(b: seq<Byte>, op: Byte)
    requires 48 <= |b| <= MAX_LEN && |b| % 4 == 0 && b[1] == op + 128 && b[3] == 1 && (op == OP_MAP || op == OP_PEER)
    ensures ValidMsg(b) <==> b[0] <= 2
    ensures var needed := (if b[0] == 2 then 60 else 48) + (if op == OP_PEER then 20 else 0);
      ValidMsg(b) ==>
        (Parse(b).Some? <==> b[0] > 0 && |b| >= needed) &&
        (Parse(b).Some? ==> Parse(b).value.version == b[0] && Parse(b).value.result == 1)
  {
    hide Parse;
    if ValidMsg(b) {
      ParserGrammar(b);
      if Parse(b).Some? {
        HeadParses(b);
      }
    }
  }

  lemma HeadParses(b: seq<Byte>)
    requires ValidMsg(b) && b[0] != 0 && Parse(b).Some?
    ensures Parse(b).value.version == b[0] && Parse(b).value.result == b[3]
  {
    hide U16At, U32At;
  }

  /**
   Asked for a DSCP, the peer puts its own in the low bits of byte 36 and sets the top bit if its
   application bit is odd; behind the header nothing else of the request changes.
   */
  lemma DscpAnswered(req: seq<Byte>, result: Byte, epoch: U32, peer: PeerInfo)
    requires |req| > 36 && (req[1] == 3 || req[1] == 131) && result != 1
    ensures Answerable(req)
    ensures var b := Respond(req, result, epoch, peer);
      b[36] % 128 == peer.dscp % 128 && (b[36] >= 128 <==> peer.dscp >= 128 || peer.appBit % 2 == 1) &&
      forall i :: 24 <= i < |req| && i != 36 ==> b[i] == req[i]
  {
    hide Be32;
  }

  // ------------------------------------------------------------- NAT-PMP

  /** The answer of section 3.3 of RFC 6886 to a 12-byte mapping request. */
  function NatPmpResponse(req: seq<Byte>, result: U16, epoch: U32, port: U16, lifetime: U32): (r: seq<Byte>)
    requires |req| == 12 && req[1] < 128
    ensures |r| == 16
  {
    [0, req[1] + 128] + Be16(result) + Be32(epoch) + req[4..6] + Be16(port) + Be32(lifetime)
  }

  lemma NatPmpEchoParses(r: Request, result: U16, epoch: U32, port: U16, lifetime: U32)
    requires r.kd.op == OP_MAP && (r.kd.proto == TCP || r.kd.proto == UDP)
    ensures |NatPmpRequest(r)| == 12 && NatPmpRequest(r)[1] < 128
    ensures var b := NatPmpResponse(NatPmpRequest(r), result, epoch, port, lifetime);
      ValidMsg(b) &&
      Parse(b) == Some(Fields(EchoedKey(0, r.kd), 0, result, lifetime, epoch, Ext(Zeros(16), port)))
  {
    hide Be16, Be32, FromBe16, FromBe32;
    var q := NatPmpRequest(r);
    assert q[4..6] == Be16(r.kd.srcPort);
    var b := NatPmpResponse(q, result, epoch, port, lifetime);
    assert b[2..4] == Be16(result) && b[4..8] == Be32(epoch) && b[8..10] == q[4..6];
    assert b[10..12] == Be16(port) && b[12..16] == Be32(lifetime);
    Be16RoundTrip(result);
    Be16RoundTrip(r.kd.srcPort);
    Be16RoundTrip(port);
    Be32RoundTrip(epoch);
    Be32RoundTrip(lifetime);
  }
}
