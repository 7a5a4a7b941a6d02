/** The bytes of PCP (versions 1 and 2) and NAT-PMP (version 0) requests. */
module Wire {
  import opened Base
  import opened FlowKey
  import opened FlowMachine

  const MAX_LEN: nat := 1100
  const TCP: Byte := 6
  const UDP: Byte := 17

  // ------------------------------------------------------------- options

  /** A PCP option: code, reserved byte, 16-bit length and data (section 7.3 of RFC 6887). */
  datatype Opt = Opt(code: Byte, data: seq<Byte>)

  const OPT_THIRD_PARTY: Byte := 1
  const OPT_PREFER_FAILURE: Byte := 2
  const OPT_FILTER: Byte := 3
  const OPT_DEVICEID: Byte := 96
  const OPT_LOCATION: Byte := 97
  const OPT_USERID: Byte := 98
  const OPT_FLOW_PRIORITY: Byte := 99
  const OPT_METADATA: Byte := 100

  type Id32 = s: seq<Byte> | |s| == 32 witness Zeros(32)
  type Id512 = s: seq<Byte> | |s| == 512 witness Zeros(512)

  /** A metadata value; val_buf holds at most 24 bytes. */
  datatype Md = Md(id: U16, val: seq<Byte>)

  type MdList = l: seq<Md> | forall i :: 0 <= i < |l| ==> |l[i].val| <= 24 witness []

  datatype Priority = Priority(up: Byte, down: Byte)

  datatype Filter = Filter(prefix: Byte, port: U16, ip: Ip)

  /** The options set on a flow, in the order the builder writes them. */
  datatype Options = Options(priority: Option<Priority>, filter: Option<Filter>, preferFailure: bool,
                             thirdParty: Option<Ip>, deviceId: Option<Id32>, userId: Option<Id512>,
                             location: Option<Id32>, md: MdList)

  function Size(o: Opt): nat {
    4 + |o.data|
  }

  /** An option the builder may write: its length fits its field and is a multiple of 4. */
  predicate OptOk(o: Opt) {
    |o.data| < 0x1_0000 && |o.data| % 4 == 0
  }

  function Encode(o: Opt): (b: seq<Byte>)
    requires OptOk(o)
    ensures |b| == Size(o)
  {
    [o.code, 0] + Be16(|o.data|) + o.data
  }

  ghost predicate AllOk(opts: seq<Opt>) {
    forall i :: 0 <= i < |opts| ==> OptOk(opts[i])
  }

  function TotalSize(opts: seq<Opt>): nat {
    if opts == [] then 0 else Size(opts[0]) + TotalSize(opts[1..])
  }

  function EncodeAll(opts: seq<Opt>): (b: seq<Byte>)
    requires AllOk(opts)
    ensures |b| == TotalSize(opts) && |b| % 4 == 0
  {
    if opts == [] then [] else Encode(opts[0]) + EncodeAll(opts[1..])
  }

  function PriorityOpt(p: Priority): Opt { Opt(OPT_FLOW_PRIORITY, [p.up, p.down, 0, 0]) }

  function FilterOpt(f: Filter): Opt { Opt(OPT_FILTER, [0, f.prefix] + Be16(f.port) + f.ip) }

  /** The zero padding that brings a metadata value to a multiple of 4. */
  function Padding(n: nat): (p: nat)
    ensures p < 4 && (n + p) % 4 == 0
  {
    (4 - n % 4) % 4
  }

  function MdOpt(m: Md): (o: Opt)
    ensures |o.data| == 4 + |m.val| + Padding(|m.val|)
  {
    Opt(OPT_METADATA, Be32(m.id) + m.val + Zeros(Padding(|m.val|)))
  }

  /** rest, with option x in front if it is set. */
  function Put(x: Option<Opt>, rest: seq<Opt>): (r: seq<Opt>)
    ensures TotalSize(r) == TotalSize(rest) + if x.Some? then Size(x.value) else 0
    ensures (x.Some? ==> OptOk(x.value)) && AllOk(rest) ==> AllOk(r)
  {
    if x.Some? then [x.value] + rest else rest
  }

  /** The struct size of fixed option i. */
  function SlotSize(i: nat): nat {
    match i case 0 => 8 case 1 => 24 case 2 => 4 case 3 => 20 case 4 => 36 case 5 => 516 case _ => 36
  }

  /** The room that the fixed options from i on can take. */
  function FixedRoom(i: nat): nat
    decreases 7 - i
  {
    if i >= 7 then 0 else SlotSize(i) + FixedRoom(i + 1)
  }

  /** The seven options of fixed size, where set. */
  function Slot(o: Options, i: nat): (x: Option<Opt>)
    requires i < 7
    ensures x.Some? ==> OptOk(x.value) && Size(x.value) == SlotSize(i)
  {
    match i
    case 0 => if o.priority.Some? then Some(PriorityOpt(o.priority.value)) else None
    case 1 => if o.filter.Some? then Some(FilterOpt(o.filter.value)) else None
    case 2 => if o.preferFailure then Some(Opt(OPT_PREFER_FAILURE, [])) else None
    case 3 => if o.thirdParty.Some? then Some(Opt(OPT_THIRD_PARTY, o.thirdParty.value)) else None
    case 4 => if o.deviceId.Some? then Some(Opt(OPT_DEVICEID, o.deviceId.value)) else None
    case 5 => if o.userId.Some? then Some(Opt(OPT_USERID, o.userId.value)) else None
    case _ => if o.location.Some? then Some(Opt(OPT_LOCATION, o.location.value)) else None
  }

  /** The options of fixed size from slot i on, in the order build_pcp_options writes them. */
  function FixedOpts(o: Options, i: nat): (s: seq<Opt>)
    requires i <= 7
    ensures AllOk(s) && TotalSize(s) <= FixedRoom(i)
    decreases 7 - i
  {
    if i == 7 then [] else Put(Slot(o, i), FixedOpts(o, i + 1))
  }

  lemma MdOptOk(m: Md)
    requires |m.val| <= 24
    ensures OptOk(MdOpt(m))
  {
    hide MdOpt;
  }

  /** The metadata options written from offset `at` on: values that are empty or do not fit are left out. */
  function MdOpts(md: MdList, at: nat): (s: seq<Opt>)
    ensures AllOk(s) && (at <= MAX_LEN ==> at + TotalSize(s) <= MAX_LEN)
    decreases |md|
  {
    if md == [] then []
    else
      var rest: MdList := md[1..];
      var o := MdOpt(md[0]);
      MdOptOk(md[0]);
      hide MdOpt, OptOk, Padding, TotalSize;
      if |md[0].val| == 0 || at + Size(o) > MAX_LEN then MdOpts(rest, at)
      else Put(Some(o), MdOpts(rest, at + Size(o)))
  }

  /** All options of a message whose opcode data ends at offset `at`. */
  function OptsFrom(o: Options, at: nat): (s: seq<Opt>)
    ensures AllOk(s) && (at <= 80 ==> at + TotalSize(s) <= MAX_LEN)
  {
    var fixed := FixedOpts(o, 0);
    FixedRoomSum();
    TotalSizeAppend(fixed, MdOpts(o.md, at + TotalSize(fixed)));
    fixed + MdOpts(o.md, at + TotalSize(fixed))
  }

  lemma FixedRoomSum()
    ensures FixedRoom(0) == 644
  {
    assert FixedRoom(5) == 552 && FixedRoom(3) == 608;
  }

  lemma {:induction false} TotalSizeAppend(a: seq<Opt>, b: seq<Opt>)
    ensures TotalSize(a + b) == TotalSize(a) + TotalSize(b)
  {
    if a == [] {
      assert a + b == b;
    } else {
      assert (a + b)[1..] == a[1..] + b;
      TotalSizeAppend(a[1..], b);
    }
  }

  lemma {:induction false} EncodeAllAppend(a: seq<Opt>, b: seq<Opt>)
    requires AllOk(a) && AllOk(b)
    ensures AllOk(a + b) && EncodeAll(a + b) == EncodeAll(a) + EncodeAll(b)
  {
    hide Encode, TotalSize, OptOk;
    if a == [] {
      assert a + b == b;
    } else {
      assert (a + b)[1..] == a[1..] + b;
      EncodeAllAppend(a[1..], b);
      assert EncodeAll(a + b) == Encode(a[0]) + EncodeAll(a[1..] + b);
    }
  }

  // ------------------------------------------------------------ messages

  /** What the builder reads of a flow. */
  datatype Request = Request(kd: Key, ext: Ext, lifetime: U32, opts: Options)

  /** pcp_request_t. */
  function Header(version: Byte, r: Request): (b: seq<Byte>)
    ensures |b| == 24
  {
    [version, r.kd.op % 128, 0, 0] + Be32(r.lifetime) + r.kd.srcIp
  }

  /** The fields that MAP and PEER share from the protocol on. */
  function Mapping(kd: Key, ext: Ext): (b: seq<Byte>)
    ensures |b| == 24
  {
    [kd.proto, 0, 0, 0] + Be16(kd.srcPort) + Be16(ext.port) + ext.ip
  }

  function Remote(kd: Key): (b: seq<Byte>)
    ensures |b| == 20
  {
    Be16(kd.dstPort) + [0, 0] + kd.dstIp
  }

  /** pcp_map_v1_t, pcp_map_v2_t, pcp_peer_v1_t or pcp_peer_v2_t. */
  function OpcodeData(version: Byte, r: Request): (b: seq<Byte>)
    ensures |b| == (if version == 2 then 12 else 0) + (if r.kd.op == OP_PEER then 44 else 24)
  {
    (if version == 2 then r.kd.nonce else []) + Mapping(r.kd, r.ext) + (if r.kd.op == OP_PEER then Remote(r.kd) else [])
  }

  /** The offset of the first option. */
  function BodySize(version: Byte, op: Byte): (n: nat)
    ensures n <= 80 && n % 4 == 0
  {
    24 + (if version == 2 then 12 else 0) + (if op == OP_PEER then 44 else 24)
  }

  function Body(version: Byte, r: Request): (b: seq<Byte>)
    ensures |b| == BodySize(version, r.kd.op)
  {
    Header(version, r) + OpcodeData(version, r)
  }

  /** The options of a MAP or PEER request. */
  function RequestOpts(version: Byte, r: Request): (s: seq<Opt>)
    ensures AllOk(s) && BodySize(version, r.kd.op) + TotalSize(s) <= MAX_LEN
  {
    OptsFrom(r.opts, BodySize(version, r.kd.op))
  }

  /** A version 1 or 2 MAP or PEER request. */
  function PcpRequest(version: Byte, r: Request): (b: seq<Byte>)
    ensures |b| == BodySize(version, r.kd.op) + TotalSize(RequestOpts(version, r))
    ensures |b| <= MAX_LEN && |b| % 4 == 0
  {
    Joined(Body(version, r), EncodeAll(RequestOpts(version, r)))
  }

  function Joined(body: seq<Byte>, tail: seq<Byte>): (b: seq<Byte>)
    requires |body| % 4 == 0 && |tail| % 4 == 0
    ensures |b| == |body| + |tail| && |b| % 4 == 0
  {
    SumOfFours(|body|, |tail|);
    body + tail
  }

  lemma SumOfFours(a: nat, b: nat)
    requires a % 4 == 0 && b % 4 == 0
    ensures (a + b) % 4 == 0
  {
    var x, y := a / 4, b / 4;
    assert a + b == 4 * (x + y);
  }

  /** A NAT-PMP request; unsupported cases leave the message empty. */
  function NatPmpRequest(r: Request): (b: seq<Byte>)
    ensures |b| <= 12
  {
    if r.kd.op == OP_ANNOUNCE then [0, 0]
    else if r.kd.op == OP_MAP && (r.kd.proto == TCP || r.kd.proto == UDP) then
      [0, if r.kd.proto == TCP then 2 else 1, 0, 0] + Be16(r.kd.srcPort) + Be16(r.ext.port) + Be32(r.lifetime)
    else []
  }

  /** What NAT-PMP cannot express. */
  predicate Inexpressible(kd: Key) {
    kd.op != OP_ANNOUNCE && !(kd.op == OP_MAP && (kd.proto == TCP || kd.proto == UDP))
  }

  /** build_pcp_msg: None when the build fails. */
  function Build(version: Byte, r: Request): (b: Option<seq<Byte>>)
    ensures b.Some? ==> |b.value| <= MAX_LEN
  {
    if version == 0 then Some(NatPmpRequest(r))
    else if r.kd.op == OP_ANNOUNCE then Some(Header(version, r))
    else if (r.kd.op == OP_MAP || r.kd.op == OP_PEER) && version <= 2 then Some(PcpRequest(version, r))
    else None
  }

  /**
   The build fails exactly for an unknown opcode, or for a mapping above version 2; at version 0
   what NAT-PMP cannot express does not fail but yields an empty message.
   */
  lemma BuildOutcome(version: Byte, r: Request)
    ensures Build(version, r).None? <==> version >= 1 && (r.kd.op > OP_PEER || (r.kd.op != OP_ANNOUNCE && version > 2))
    ensures Build(version, r) == Some([]) <==> version == 0 && Inexpressible(r.kd)
  {
  }
}
