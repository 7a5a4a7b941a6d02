/** Reading the options of a request back: by their length fields, and as the peer walks them. */
module OptionWalk {
  import opened Base
  import opened FlowKey
  import opened Wire

  /** The options from offset `at` on, each with its offset. */
  function Placed(opts: seq<Opt>, at: nat): seq<(nat, Opt)> {
    if opts == [] then [] else [(at, opts[0])] + Placed(opts[1..], at + Size(opts[0]))
  }

  function Positions(opts: seq<Opt>, at: nat): seq<nat> {
    if opts == [] then [] else [at] + Positions(opts[1..], at + Size(opts[0]))
  }

  // ------------------------------------------------ by the length fields

  /** The options of msg from pos on, as section 7.3 of RFC 6887 delimits them; None if they overrun it. */
  function WalkByLength(msg: seq<Byte>, pos: nat): (r: Option<seq<(nat, Opt)>>)
    requires pos <= |msg|
    decreases |msg| - pos
  {
    if pos == |msg| then Some([])
    else if pos + 4 > |msg| then None
    else
      var len := FromBe16(msg[pos + 2..pos + 4]);
      if pos + 4 + len > |msg| then None
      else
        var rest := WalkByLength(msg, pos + 4 + len);
        if rest.None? then None
        else Some([(pos, Opt(msg[pos], msg[pos + 4..pos + 4 + len]))] + rest.value)
  }

  /** opts are encoded in buf from offset `at` on. */
  ghost predicate EncodedAt(buf: seq<Byte>, at: nat, opts: seq<Opt>) {
    AllOk(opts) && at + TotalSize(opts) <= |buf| && buf[at..at + TotalSize(opts)] == EncodeAll(opts)
  }

  lemma EncodedOne(buf: seq<Byte>, at: nat, o: Opt)
    requires OptOk(o) && at + Size(o) <= |buf| && buf[at..at + Size(o)] == Encode(o)
    ensures buf[at] == o.code && FromBe16(buf[at + 2..at + 4]) == |o.data| && buf[at + 4..at + Size(o)] == o.data
  {
    var e := Encode(o);
    assert forall i :: 0 <= i < |e| ==> buf[at + i] == buf[at..at + Size(o)][i] == e[i];
    assert buf[at + 2..at + 4] == [e[2], e[3]] == Be16(|o.data|);
    Be16RoundTrip(|o.data|);
    assert e[4..] == o.data;
    assert buf[at + 4..at + Size(o)] == e[4..];
  }

  lemma EncodedSplit(buf: seq<Byte>, at: nat, opts: seq<Opt>)
    requires EncodedAt(buf, at, opts) && opts != []
    ensures EncodedAt(buf, at + Size(opts[0]), opts[1..])
    ensures buf[at..at + Size(opts[0])] == Encode(opts[0])
  {
    hide Encode;
    var all := buf[at..at + TotalSize(opts)];
    assert all == Encode(opts[0]) + EncodeAll(opts[1..]);
    assert buf[at..at + Size(opts[0])] == all[..Size(opts[0])];
    assert buf[at + Size(opts[0])..at + TotalSize(opts)] == all[Size(opts[0])..];
  }

  /** A walk over encoded options ends exactly at the end and yields exactly those options, in order. */
  lemma {:induction false} WalkYieldsOptions(msg: seq<Byte>, at: nat, opts: seq<Opt>)
    requires EncodedAt(msg, at, opts) && at + TotalSize(opts) == |msg|
    ensures WalkByLength(msg, at) == Some(Placed(opts, at))
    decreases |opts|
  {
    hide Encode, FromBe16, EncodeAll;
    if opts != [] {
      EncodedSplit(msg, at, opts);
      EncodedOne(msg, at, opts[0]);
      WalkYieldsOptions(msg, at + Size(opts[0]), opts[1..]);
    }
  }

  // --------------------------------------------------- as the peer walks

  /** How far print_PCP_options moves on over an option; None for a code it does not know. */
  function StructSize(code: Byte, len: U16): (r: Option<nat>)
    ensures r.Some? ==> r.value >= 4
  {
    match code
    case 1 => Some(20)
    case 2 => Some(4)
    case 3 => Some(24)
    case 96 => Some(36)
    case 97 => Some(36)
    case 98 => Some(516)
    case 99 => Some(8)
    case 100 => Some(4 + len)
    case _ => None
  }

  /** The offsets at which the peer takes an option, given what it believes remains. */
  function PeerWalk(buf: seq<Byte>, processed: nat, remain: int): (visited: seq<nat>)
    decreases remain
  {
    if remain <= 0 || processed + 4 > |buf| then []
    else
      var step := StructSize(buf[processed], FromBe16(buf[processed + 2..processed + 4]));
      [processed] + if step.None? then [] else PeerWalk(buf, processed + step.value, remain - step.value)
  }

  /** The option loop of printPCPreq with the bookkeeping of print_PCP_options. */
  method WalkOptions(buf: seq<Byte>, start: nat, size: int) returns (visited: seq<nat>)
    ensures visited == PeerWalk(buf, start, size)
  {
    hide StructSize, FromBe16, PeerWalk;
    var processed: nat, remain := start, size;
    visited := [];
    while remain > 0 && processed + 4 <= |buf|
      invariant PeerWalk(buf, start, size) == visited + PeerWalk(buf, processed, remain)
      decreases remain
    {
      var step := StructSize(buf[processed], FromBe16(buf[processed + 2..processed + 4]));
      PeerUnfolds(buf, processed, remain, step);
      PeerRests(buf, processed, 0);
      visited := visited + [processed];
      if step.None? {
        remain := 0;
      } else {
        processed := processed + step.value;
        remain := remain - step.value;
      }
    }
    PeerRests(buf, processed, remain);
  }

  lemma PeerUnfolds(buf: seq<Byte>, at: nat, remain: int, step: Option<nat>)
    requires remain > 0 && at + 4 <= |buf| && step == StructSize(buf[at], FromBe16(buf[at + 2..at + 4]))
    ensures PeerWalk(buf, at, remain) ==
            [at] + if step.None? then [] else PeerWalk(buf, at + step.value, remain - step.value)
    ensures step.Some? ==> step.value >= 4
  {
    hide StructSize, FromBe16;
  }

  lemma PeerRests(buf: seq<Byte>, at: nat, remain: int)
    requires remain <= 0 || at + 4 > |buf|
    ensures PeerWalk(buf, at, remain) == []
  {
  }

  /** Every option the builder writes has the struct size the peer expects for its code. */
  predicate Known(o: Opt) {
    OptOk(o) && StructSize(o.code, |o.data|) == Some(Size(o))
  }

  ghost predicate AllKnown(opts: seq<Opt>) {
    forall i :: 0 <= i < |opts| ==> Known(opts[i])
  }

  lemma PeerStep(buf: seq<Byte>, at: nat, o: Opt, remain: int)
    requires Known(o) && at + Size(o) <= |buf| && remain > 0
    requires buf[at] == o.code && FromBe16(buf[at + 2..at + 4]) == |o.data|
    ensures PeerWalk(buf, at, remain) == [at] + PeerWalk(buf, at + Size(o), remain - Size(o))
  {
    hide PeerWalk, FromBe16, StructSize;
    PeerUnfolds(buf, at, remain, Some(Size(o)));
  }

  /** The peer visits the options' own offsets, then goes on from their end with what it still believes remains. */
  lemma {:induction false} PeerWalkFollows(buf: seq<Byte>, at: nat, opts: seq<Opt>, extra: nat)
    requires AllKnown(opts) && EncodedAt(buf, at, opts)
    ensures PeerWalk(buf, at, TotalSize(opts) + extra) ==
            Positions(opts, at) + PeerWalk(buf, at + TotalSize(opts), extra)
    decreases |opts|
  {
    hide Encode, FromBe16, EncodeAll, PeerWalk, Known;
    if opts == [] {
      assert Positions(opts, at) == [];
    } else {
      var o := opts[0];
      assert Known(o);
      EncodedSplit(buf, at, opts);
      EncodedOne(buf, at, o);
      PeerStep(buf, at, o, TotalSize(opts) + extra);
      PeerWalkFollows(buf, at + Size(o), opts[1..], extra);
    }
  }

  // ------------------------------------------------------ built requests

  lemma {:induction false} FixedOptsKnown(o: Options, i: nat)
    requires i <= 7
    ensures AllKnown(FixedOpts(o, i))
    decreases 7 - i
  {
    if i < 7 {
      FixedOptsKnown(o, i + 1);
      SlotKnown(o, i);
    }
  }

  lemma SlotKnown(o: Options, i: nat)
    requires i < 7
    ensures Slot(o, i).Some? ==> Known(Slot(o, i).value)
  {
  }

  lemma {:induction false} MdOptsKnown(md: MdList, at: nat)
    ensures AllKnown(MdOpts(md, at))
    decreases |md|
  {
    if md != [] {
      MdOptsKnown(md[1..], at);
      MdOptsKnown(md[1..], at + Size(MdOpt(md[0])));
      assert Known(MdOpt(md[0]));
    }
  }

  lemma RequestOptsKnown(version: Byte, r: Request)
    ensures AllKnown(RequestOpts(version, r))
  {
    hide FixedOpts, MdOpts, Known, BodySize, TotalSize;
    FixedOptsKnown(r.opts, 0);
    MdOptsKnown(r.opts.md, BodySize(version, r.kd.op) + TotalSize(FixedOpts(r.opts, 0)));
  }

  /**
   For any options and metadata, a walk by length fields over a built MAP or PEER request yields
   exactly the options written, in order, and ends at the end of the message.
   */
  lemma OptionsReadBack(version: Byte, r: Request)
    ensures WalkByLength(PcpRequest(version, r), BodySize(version, r.kd.op)) ==
            Some(Placed(RequestOpts(version, r), BodySize(version, r.kd.op)))
  {
    RequestEncodes(version, r, []);
    assert PcpRequest(version, r) + [] == PcpRequest(version, r);
    WalkYieldsOptions(PcpRequest(version, r), BodySize(version, r.kd.op), RequestOpts(version, r));
  }

  /** Where the peer believes the options start and how many bytes it believes they take. */
  function PeerRemain(version: Byte, op: Byte, size: nat): int {
    size - if version == 1 && op == OP_PEER then BodySize(1, OP_MAP) else BodySize(version, op)
  }

  /**
   The peer visits the same offsets for MAP at versions 1 and 2 and PEER at version 2. For PEER at
   version 1 it subtracts the size of a MAP and takes one option too many, at the end of the message.
   */
  lemma PeerVisitsOptions(version: Byte, r: Request, slack: nat)
    requires 1 <= version <= 2 && (r.kd.op == OP_MAP || r.kd.op == OP_PEER) && slack >= 4
    ensures var msg, at := PcpRequest(version, r), BodySize(version, r.kd.op);
      PeerWalk(msg + Zeros(slack), at, PeerRemain(version, r.kd.op, |msg|)) ==
      Positions(RequestOpts(version, r), at) + if version == 1 && r.kd.op == OP_PEER then [|msg|] else []
  {
    hide RequestOpts, PeerWalk, Positions, PcpRequest, EncodedAt;
    var msg, at := PcpRequest(version, r), BodySize(version, r.kd.op);
    var extra := if version == 1 && r.kd.op == OP_PEER then 20 else 0;
    RequestOptsKnown(version, r);
    RequestEncodes(version, r, Zeros(slack));
    PeerWalkFollows(msg + Zeros(slack), at, RequestOpts(version, r), extra);
    PeerStops(msg, slack, extra);
  }

  /** A request in a larger buffer: its options lie right behind its opcode data. */
  lemma RequestEncodes(version: Byte, r: Request, tail: seq<Byte>)
    ensures EncodedAt(PcpRequest(version, r) + tail, BodySize(version, r.kd.op), RequestOpts(version, r))
  {
    hide RequestOpts, Body, EncodeAll, TotalSize;
    var at, opts := BodySize(version, r.kd.op), RequestOpts(version, r);
    assert (PcpRequest(version, r) + tail)[at..at + TotalSize(opts)] == EncodeAll(opts);
  }

  lemma PeerStops(msg: seq<Byte>, slack: nat, extra: nat)
    requires slack >= 4
    ensures PeerWalk(msg + Zeros(slack), |msg|, extra) == if extra == 0 then [] else [|msg|]
  {
    var buf := msg + Zeros(slack);
    assert buf[|msg|] == 0;
  }
}
