/** validate_pcp_msg and parse_response: what is accepted, and which bytes end up in which field. */
module Parser {
  import opened Base
  import opened FlowKey
  import opened FlowMachine
  import opened Wire

  /** What parse_response stores of a response. */
  datatype Fields = Fields(kd: Key, version: Byte, result: U16, lifetime: U32, epoch: U32, ext: Ext)

  const NO_EXT: Ext := Ext(Zeros(16), 0)

  /** A cleared key with only the opcode set. */
  function BlankKey(op: Byte): Key {
    Key(op, Zeros(16), Zeros(16), 0, Zeros(12), 0, 0, Zeros(16), 0)
  }

  function U16At(b: seq<Byte>, i: nat): U16
    requires i + 2 <= |b|
  {
    FromBe16(b[i..i + 2])
  }

  function U32At(b: seq<Byte>, i: nat): U32
    requires i + 4 <= |b|
  {
    FromBe32(b[i..i + 4])
  }

  predicate ValidMsg(b: seq<Byte>) {
    && |b| % 4 == 0 && 4 <= |b| <= MAX_LEN
    && (b[0] == 0 || b[1] >= 128)
    && b[0] <= 2
  }

  function Opcode(b: seq<Byte>): Byte
    requires |b| >= 4
  {
    b[1] % 128
  }

  /** The mapping fields at offset `at`. */
  function WithMapping(f: Fields, b: seq<Byte>, at: nat): Fields
    requires at + 24 <= |b|
  {
    f.(kd := f.kd.(proto := b[at], srcPort := U16At(b, at + 4)),
       ext := Ext(b[at + 8..at + 24], U16At(b, at + 6)))
  }

  function WithRemote(f: Fields, b: seq<Byte>, at: nat): Fields
    requires at + 20 <= |b|
  {
    f.(kd := f.kd.(dstPort := U16At(b, at), dstIp := b[at + 4..at + 20]))
  }

  function WithNonce(f: Fields, b: seq<Byte>, at: nat): Fields
    requires at + 12 <= |b|
  {
    f.(kd := f.kd.(nonce := b[at..at + 12]))
  }

  /** Versions 1 and 2; m is where the mapping fields start. */
  function ParsePcp(b: seq<Byte>): (r: Option<Fields>)
    requires ValidMsg(b)
  {
    var m := if b[0] == 2 then 36 else 24;
    if |b| < 24 then None
    else
      var base := Fields(BlankKey(Opcode(b)), b[0], b[3], U32At(b, 4), U32At(b, 8), NO_EXT);
      if Opcode(b) == OP_ANNOUNCE then Some(base)
      else if Opcode(b) == OP_MAP && |b| >= m + 24 then
        Some(WithMapping(if b[0] == 2 then WithNonce(base, b, 24) else base, b, m))
      else if Opcode(b) == OP_PEER && |b| >= m + 44 then
        Some(WithRemote(WithMapping(if b[0] == 2 then WithNonce(base, b, 24) else base, b, m), b, m + 24))
      else None
  }

  function ParseNatPmp(b: seq<Byte>): (r: Option<Fields>)
    requires ValidMsg(b)
  {
    var base := Fields(BlankKey(Opcode(b)), 0, b[3], 0, 0, NO_EXT);
    if Opcode(b) == OP_ANNOUNCE && |b| == 12 then
      Some(base.(epoch := U32At(b, 4), ext := NO_EXT.(ip := V4Mapped(b[8..12]))))
    else if (Opcode(b) == 1 || Opcode(b) == 2) && |b| == 16 then
      Some(base.(result := U16At(b, 2), epoch := U32At(b, 4), lifetime := U32At(b, 12),
                 kd := base.kd.(op := OP_MAP, proto := if Opcode(b) == 2 then TCP else UDP, srcPort := U16At(b, 8)),
                 ext := NO_EXT.(port := U16At(b, 10))))
    else if |b| == 8 then Some(base.(result := U16At(b, 2), epoch := U32At(b, 4)))
    else None
  }

  function Parse(b: seq<Byte>): (r: Option<Fields>)
    requires ValidMsg(b)
  {
    if b[0] == 0 then ParseNatPmp(b) else ParsePcp(b)
  }

  /** The responses that are accepted, by version, opcode and length alone. */
  predicate Accepts(version: Byte, op: Byte, len: nat) {
    match version
    case 0 => len == 8 || (op == 0 && len == 12) || ((op == 1 || op == 2) && len == 16)
    case 1 => (op == 0 && len >= 24) || (op == 1 && len >= 48) || (op == 2 && len >= 68)
    case 2 => (op == 0 && len >= 24) || (op == 1 && len >= 60) || (op == 2 && len >= 80)
    case _ => false
  }

  /** After validation, acceptance is exactly that grammar. */
  lemma ParserGrammar(b: seq<Byte>)
    requires ValidMsg(b)
    ensures Parse(b).Some? <==> Accepts(b[0], Opcode(b), |b|)
  {
  }

  // ------------------------------------------------------------ in place

  /** pcp_recv_msg_t: the received bytes and the fields filled from them. */
  class RecvMsg {
    const buf: seq<Byte>
    var kd: Key
    var version: Byte
    var result: U16
    var lifetime: U32
    var epoch: U32
    var ext: Ext

    ghost function Value(): Fields
      reads this
    {
      Fields(kd, version, result, lifetime, epoch, ext)
    }

    /** read_msg clears the record before it stores the received bytes. */
    constructor (b: seq<Byte>)
      ensures buf == b && lifetime == 0 && epoch == 0 && ext == NO_EXT
    {
      buf := b;
      kd, version, result, lifetime, epoch, ext := BlankKey(0), 0, 0, 0, 0, NO_EXT;
    }

    /** validate_pcp_msg. */
    method Validate() returns (ok: bool)
      ensures ok <==> ValidMsg(buf)
    {
      if |buf| % 4 != 0 || |buf| < 4 || |buf| > MAX_LEN {
        return false;
      }
      if buf[0] != 0 && buf[1] < 128 {
        return false;
      }
      return buf[0] <= 2;
    }

    /** parse_v1_map, parse_v2_map and the shared part of the peer parsers. */
    method ReadMapping(at: nat)
      requires at + 24 <= |buf|
      modifies this
      ensures Value() == WithMapping(old(Value()), buf, at)
    {
      kd := kd.(srcPort := FromBe16(buf[at + 4..at + 6]), proto := buf[at]);
      ext := Ext(buf[at + 8..at + 24], FromBe16(buf[at + 6..at + 8]));
    }

    /** parse_v1_resp and parse_v2_resp. */
    method ParsePcpResponse() returns (ok: bool)
      requires ValidMsg(buf) && buf[0] != 0
      requires Value() == Fields(BlankKey(Opcode(buf)), buf[0], buf[3], 0, 0, NO_EXT)
      modifies this
      ensures ok <==> ParsePcp(buf).Some?
      ensures ok ==> Value() == ParsePcp(buf).value
    {
      hide U16At, U32At;
      if |buf| < 24 {
        return false;
      }
      lifetime, epoch := U32At(buf, 4), U32At(buf, 8);
      var m := if version == 2 then 36 else 24;
      if kd.op == OP_ANNOUNCE {
        return true;
      } else if kd.op == OP_MAP {
        if |buf| < m + 24 {
          return false;
        }
        if version == 2 {
          kd := kd.(nonce := buf[24..36]);
        }
        ReadMapping(m);
        return true;
      } else if kd.op == OP_PEER {
        if |buf| < m + 44 {
          return false;
        }
        if version == 2 {
          kd := kd.(nonce := buf[24..36]);
        }
        ReadMapping(m);
        kd := kd.(dstPort := U16At(buf, m + 24), dstIp := buf[m + 28..m + 44]);
        return true;
      }
      return false;
    }

    /** parse_v0_resp. */
    method ParseNatPmpResponse() returns (ok: bool)
      requires ValidMsg(buf) && buf[0] == 0
      requires Value() == Fields(BlankKey(Opcode(buf)), 0, buf[3], 0, 0, NO_EXT)
      modifies this
      ensures ok <==> ParseNatPmp(buf).Some?
      ensures ok ==> Value() == ParseNatPmp(buf).value
    {
      hide U16At, U32At;
      if kd.op == OP_ANNOUNCE && |buf| == 12 {
        epoch := U32At(buf, 4);
        ext := Ext(V4Mapped(buf[8..12]), 0);
        return true;
      } else if (kd.op == 1 || kd.op == 2) && |buf| == 16 {
        ext := Ext(Zeros(16), U16At(buf, 10));
        epoch, lifetime, result := U32At(buf, 4), U32At(buf, 12), U16At(buf, 2);
        kd := kd.(srcPort := U16At(buf, 8), proto := if kd.op == 2 then TCP else UDP, op := OP_MAP);
        return true;
      }
      if |buf| == 8 {
        result, epoch := U16At(buf, 2), U32At(buf, 4);
        return true;
      }
      return false;
    }

    /** parse_response; reads no byte past the received length. */
    method ParseResponse() returns (ok: bool)
      requires ValidMsg(buf) && lifetime == 0 && epoch == 0 && ext == NO_EXT
      modifies this
      ensures ok <==> Parse(buf).Some?
      ensures ok ==> Value() == Parse(buf).value
    {
      version, result, kd := buf[0], buf[3], BlankKey(buf[1] % 128);
      if version == 0 {
        ok := ParseNatPmpResponse();
      } else {
        ok := ParsePcpResponse();
      }
    }
  }
}
