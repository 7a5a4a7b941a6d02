/** build_pcp_msg: writing a request into the flow's zeroed buffer through an advancing cursor. */
module Builder {
  import opened Base
  import opened FlowKey
  import opened FlowMachine
  import opened Wire

  class MsgBuffer {
    const buf: array<Byte>
    var cur: nat

    ghost predicate Valid()
      reads this, buf
    {
      buf.Length == MAX_LEN && cur <= MAX_LEN && forall i :: cur <= i < MAX_LEN ==> buf[i] == 0
    }

    ghost function Written(): (s: seq<Byte>)
      requires Valid()
      reads this, buf
      ensures |s| == cur
    {
      buf[..cur]
    }

    /** calloc(1, PCP_MAX_LEN). */
    constructor ()
      ensures Valid() && Written() == [] && fresh(buf)
    {
      buf := new Byte[MAX_LEN](i => 0);
      cur := 0;
    }

    method Put(b: seq<Byte>)
      requires Valid() && cur + |b| <= MAX_LEN
      modifies this, buf
      ensures Valid() && Written() == old(Written()) + b
    {
      var i := 0;
      while i < |b|
        invariant 0 <= i <= |b| && cur == old(cur) + i && Valid()
        invariant Written() == old(Written()) + b[..i]
      {
        buf[cur] := b[i];
        cur := cur + 1;
        i := i + 1;
      }
      assert b[..i] == b;
    }

    /** Moving the cursor over bytes that stay zero. */
    method Skip(n: nat)
      requires Valid() && cur + n <= MAX_LEN
      modifies this
      ensures Valid() && Written() == old(Written()) + Zeros(n)
    {
      cur := cur + n;
    }

    /** pcp_options_hdr_t and the data behind it. */
    method PutOption(code: Byte, data: seq<Byte>)
      requires Valid() && OptOk(Opt(code, data)) && cur + 4 + |data| <= MAX_LEN
      modifies this, buf
      ensures Valid() && Written() == old(Written()) + Encode(Opt(code, data))
    {
      Put([code]);
      Skip(1);
      Put(Be16(|data|));
      Put(data);
      assert [code] + Zeros(1) + Be16(|data|) + data == Encode(Opt(code, data));
    }

    // ------------------------------------------------------- options

    /** Fixed option i of the flow, if it is set: flow priority, filter, prefer failure, third party, ids. */
    method AddIfSet(o: Options, i: nat, ghost goal: seq<Byte>)
      requires Valid() && i < 7 && cur + SlotSize(i) <= MAX_LEN
      requires Written() + EncodeAll(FixedOpts(o, i)) == goal
      modifies this, buf
      ensures Valid() && cur <= old(cur) + SlotSize(i)
      ensures Written() + EncodeAll(FixedOpts(o, i + 1)) == goal
    {
      hide EncodeAll, FixedOpts, Encode, Slot;
      var x := Slot(o, i);
      FixedStep(o, i, Written());
      if x.Some? {
        PutOption(x.value.code, x.value.data);
      } else {
        assert Written() + [] == Written();
      }
    }

    /** add_md_option: left out when it would pass the end of the buffer. */
    method AddMetadata(m: Md)
      requires Valid() && |m.val| <= 24
      modifies this, buf
      ensures Valid()
      ensures Written() == old(Written()) + if old(cur) + Size(MdOpt(m)) > MAX_LEN then [] else Encode(MdOpt(m))
    {
      var padding := (4 - |m.val| % 4) % 4;
      if cur + (8 + |m.val| + padding) > MAX_LEN {
        assert Written() + [] == Written();
        return;
      }
      PutOption(OPT_METADATA, Be32(m.id) + m.val + Zeros(padding));
    }

    method AddMetadataList(md: MdList)
      requires Valid()
      modifies this, buf
      ensures Valid() && Written() == old(Written()) + EncodeAll(MdOpts(md, old(cur)))
    {
      hide EncodeAll, MdOpts, MdOpt, Encode;
      var k := 0;
      assert md[0..] == md;
      while k < |md|
        invariant 0 <= k <= |md| && Valid()
        invariant Written() + EncodeAll(MdOpts(md[k..], cur)) == old(Written()) + EncodeAll(MdOpts(md, old(cur)))
      {
        ghost var was, at := Written(), cur;
        MdStep(md, k, at);
        if |md[k].val| != 0 {
          AddMetadata(md[k]);
        }
        k := k + 1;
        assert |MdChunk(md[k - 1], at)| == cur - at;
        assert was + (MdChunk(md[k - 1], at) + EncodeAll(MdOpts(md[k..], cur))) ==
               (was + MdChunk(md[k - 1], at)) + EncodeAll(MdOpts(md[k..], cur));
      }
      NoMetadata(cur);
      assert Written() + [] == Written();
    }

    /** The options of fixed size, in the order of build_pcp_options. */
    method AddFixedOptions(o: Options)
      requires Valid() && cur + 644 <= MAX_LEN
      modifies this, buf
      ensures Valid() && Written() == old(Written()) + EncodeAll(FixedOpts(o, 0))
    {
      hide EncodeAll, FixedOpts, Slot, Written, Valid;
      ghost var goal := Written() + EncodeAll(FixedOpts(o, 0));
      AddIfSet(o, 0, goal);
      AddIfSet(o, 1, goal);
      AddIfSet(o, 2, goal);
      AddIfSet(o, 3, goal);
      AddIfSet(o, 4, goal);
      AddIfSet(o, 5, goal);
      AddIfSet(o, 6, goal);
      NoFixed(o);
      assert Written() + [] == Written();
    }

    /** build_pcp_options. */
    method BuildOptions(o: Options)
      requires Valid() && cur <= 80
      modifies this, buf
      ensures Valid() && Written() == old(Written()) + EncodeAll(OptsFrom(o, old(cur)))
    {
      hide EncodeAll, FixedOpts, MdOpts;
      ghost var was, at := Written(), cur;
      AddFixedOptions(o);
      AddMetadataList(o.md);
      EncodeAllAppend(FixedOpts(o, 0), MdOpts(o.md, at + TotalSize(FixedOpts(o, 0))));
    }

    // ---------------------------------------------------- opcode data

    /** build_pcp_map and build_pcp_peer at versions 1 and 2; false for any other version. */
    method BuildOpcode(version: Byte, r: Request) returns (ok: bool)
      requires Valid() && Written() == Header(version, r) && (r.kd.op == OP_MAP || r.kd.op == OP_PEER)
      modifies this, buf
      ensures Valid() && (ok <==> version == 1 || version == 2)
      ensures ok ==> Written() == PcpRequest(version, r)
    {
      hide EncodeAll, OptsFrom, Header, Be16, Mapping, Remote;
      if version != 1 && version != 2 {
        return false;
      }
      ghost var h := Written();
      if version == 2 {
        Put(r.kd.nonce);
      }
      PutMapping(r.kd, r.ext);
      if r.kd.op == OP_PEER {
        PutRemote(r.kd);
      }
      assert Written() == h + OpcodeData(version, r);
      BuildOptions(r.opts);
      return true;
    }

    method PutMapping(kd: Key, ext: Ext)
      requires Valid() && cur + 24 <= MAX_LEN
      modifies this, buf
      ensures Valid() && Written() == old(Written()) + Mapping(kd, ext)
    {
      hide Be16;
      Put([kd.proto]);
      Skip(3);
      Put(Be16(kd.srcPort));
      Put(Be16(ext.port));
      Put(ext.ip);
      assert [kd.proto] + Zeros(3) + Be16(kd.srcPort) + Be16(ext.port) + ext.ip == Mapping(kd, ext);
    }

    method PutRemote(kd: Key)
      requires Valid() && cur + 20 <= MAX_LEN
      modifies this, buf
      ensures Valid() && Written() == old(Written()) + Remote(kd)
    {
      hide Be16;
      Put(Be16(kd.dstPort));
      Skip(2);
      Put(kd.dstIp);
      assert Be16(kd.dstPort) + Zeros(2) + kd.dstIp == Remote(kd);
    }

    /** build_natpmp_msg; the returned code is 0 or one of the positive codes for what NAT-PMP lacks. */
    method BuildNatPmp(r: Request) returns (code: int)
      requires Valid() && Written() == []
      modifies this, buf
      ensures Valid() && code >= 0 && Written() == NatPmpRequest(r)
    {
      hide Be16, Be32;
      if r.kd.op == OP_ANNOUNCE {
        Put([0, 0]);
        return 0;
      } else if r.kd.op == OP_MAP {
        if r.kd.proto != TCP && r.kd.proto != UDP {
          return 9;
        }
        Put([0, if r.kd.proto == TCP then 2 else 1]);
        Skip(2);
        Put(Be16(r.kd.srcPort));
        Put(Be16(r.ext.port));
        Put(Be32(r.lifetime));
        assert Written() == NatPmpRequest(r);
        return 0;
      }
      return 4;
    }

    /** build_pcp_msg: the message built is the one specified, and none is built when the code is negative. */
    method BuildMsg(version: Byte, r: Request) returns (built: bool)
      requires Valid() && Written() == []
      modifies this, buf
      ensures Valid() && (built <==> Build(version, r).Some?)
      ensures built ==> Written() == Build(version, r).value
    {
      hide Be32, PcpRequest, NatPmpRequest;
      if version == 0 {
        var code := BuildNatPmp(r);
        return code >= 0;
      }
      Put([version, r.kd.op % 128]);
      Skip(2);
      Put(Be32(r.lifetime));
      Put(r.kd.srcIp);
      assert Written() == Header(version, r);
      if r.kd.op == OP_MAP || r.kd.op == OP_PEER {
        built := BuildOpcode(version, r);
      } else {
        built := r.kd.op == OP_ANNOUNCE;
      }
    }
  }

  /** The bytes of fixed option i. */
  ghost function SlotBytes(o: Options, i: nat): (b: seq<Byte>)
    requires i < 7
  {
    if Slot(o, i).Some? then Encode(Slot(o, i).value) else []
  }

  lemma FixedStep(o: Options, i: nat, w: seq<Byte>)
    requires i < 7
    ensures w + EncodeAll(FixedOpts(o, i)) == (w + SlotBytes(o, i)) + EncodeAll(FixedOpts(o, i + 1))
  {
    hide EncodeAll, FixedOpts, SlotBytes;
    FixedHead(o, i);
  }

  lemma FixedHead(o: Options, i: nat)
    requires i < 7
    ensures EncodeAll(FixedOpts(o, i)) == SlotBytes(o, i) + EncodeAll(FixedOpts(o, i + 1))
  {
    hide Encode, Slot;
    if Slot(o, i).Some? {
      assert FixedOpts(o, i)[1..] == FixedOpts(o, i + 1);
    }
  }

  lemma NoFixed(o: Options)
    ensures EncodeAll(FixedOpts(o, 7)) == []
  {
  }

  /** The bytes that one metadata value contributes at offset `at`. */
  ghost function MdChunk(m: Md, at: nat): (b: seq<Byte>)
    requires |m.val| <= 24
  {
    if |m.val| == 0 || at + Size(MdOpt(m)) > MAX_LEN then [] else Encode(MdOpt(m))
  }

  lemma MdStep(md: MdList, k: nat, at: nat)
    requires k < |md|
    ensures EncodeAll(MdOpts(md[k..], at)) == MdChunk(md[k], at) + EncodeAll(MdOpts(md[k + 1..], at + |MdChunk(md[k], at)|))
  {
    hide Encode, MdOpt;
    assert md[k..][1..] == md[k + 1..] && md[k..][0] == md[k];
  }

  lemma NoMetadata(at: nat)
    ensures EncodeAll(MdOpts([], at)) == []
  {
  }
}
