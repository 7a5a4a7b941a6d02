/** From the bytes of a datagram to the mapping of a flow, over a whole pulse. */
module Grants {
  import opened Base
  import opened FlowKey
  import opened FlowMachine
  import opened FlowRuns
  import opened ServerMachine
  import opened ServerRuns
  import opened TimerPass
  import opened Drive
  import opened Recovery
  import opened Pulse
  import opened Parser
  import opened Client
  import opened ClientRuns
  import opened RoundTrip
  import opened Reading
  import Service = Answers
  import Wire

  /** A flow that awaits a response. */
  predicate Awaits(f: Flow) {
    f.state == WaitResp || f.state == WaitRenew
  }

  /** Whatever else the drive does, a success it awaited leaves a flow with the mapping of that response. */
  lemma DriveGrants(w: World, s: nat, m: Msg, now: int, env: Env, id: nat)
    requires AtRest(w) && s < |w.servers| && Still(env, now) && m.version <= MAX_VERSION && Listens(w.servers[s], m, now)
    requires Target(w, s, m) == Some(id) && m.result == 0 && Awaits(w.flows[id])
    ensures var r := Iter(w, s, IoEvent(m), now, env);
      id in r.flows && r.flows[id].kd == w.flows[id].kd && GrantedBy(r.flows[id], Resolved(w.servers[s], m))
  {
    hide Run, TableOk, PingsOk, FlowOk, Target, Settle, Drain, EpochRestart, TriggerEnds, KeepsGrant;
    TakesMessage(w, s, m, now, env);
    SuccessIsTaken(w.flows[id], Resolved(w.servers[s], m), Ctx(true, false), env, w.tick);
    var w1 := Run(w, s, IoEvent(m), now, env);
    if RestartNoticed(w, s, m, now) {
      var t1, t2 := TriggerCourse(w, s, m, now, env, id);
      TriggerEndsMapping(AfterResponse(w, s, m, env, id), env(t1), Luck(env(t2), env(t2 + 1)), now);
    } else {
      ResponseKeeps(w, s, m, now, env);
      ResponseEntersRestart(w, s, m, now, env);
      SettleKeeps(w1, s, now, env);
      assert FlowMoves(w1.flows[id], Settle(w1, s, now, env).flows[id], None);
    }
  }

  /** The pulse a delivers a success to flow id, which awaits one. */
  ghost predicate Succeeds(w: World, a: Action, id: nat)
    requires AtRest(w) && Enabled(w, a)
  {
    Answers(w, a, id) && id in w.flows && Awaits(w.flows[id]) &&
    var r := Delivered(w, a.g).value;
    r.m.result == 0 && Listens(w.servers[r.s], r.m, a.t.now)
  }

  /** After the whole pulse, with every other server driven, the flow holds that response's mapping. */
  lemma BeatGrants(w: World, a: Action, id: nat)
    requires AtRest(w) && Enabled(w, a) && Succeeds(w, a, id)
    ensures var r := Delivered(w, a.g).value;
      id in Step(w, a).flows && Step(w, a).flows[id].kd == w.flows[id].kd &&
      GrantedBy(Step(w, a).flows[id], Resolved(w.servers[r.s], r.m))
  {
    hide TableOk, PingsOk, FlowOk, Iter, DriveFrom, Target, Delivered, Listens, KeepsGrant, Resolved;
    var r := Delivered(w, a.g);
    DriveGrants(w, r.value.s, r.value.m, a.t.now, a.t.env, id);
    ReceivedAtRest(w, r, a.t);
    var w1 := Received(w, r, a.t);
    DriveFromKeeps(w1, 0, a.d, a.tout);
    assert FlowMoves(w1.flows[id], Step(w, a).flows[id], None);
  }

  /** When a mapping received at second `at` for `lifetime` seconds ends. */
  function EndOf(at: nat, lifetime: nat): int {
    if at + lifetime <= 0x7fff_ffff_ffff_ffff then at + lifetime else 0x7fff_ffff_ffff_ffff
  }

  /**
   Flow f holds what the standards' offsets give for datagram g: the end of life and the external
   port and address. A NAT-PMP response names no address; it is the one announced last.
   */
  ghost predicate MappedBy(f: Flow, g: Datagram, announced: V4) {
    var b := g.bytes;
    |b| >= 4 &&
    if b[0] == 0 then
      |b| == 16 ==>
        Num16(b, 2) == 0 && f.recvEnd == EndOf(g.at, Num32(b, 12)) &&
        f.ext.port == Num16(b, 10) && f.ext.ip == Zeros(10) + [255, 255] + announced
    else
      var m := MappingAt(b[0]);
      |b| >= m + 24 && b[3] == 0 && f.recvEnd == EndOf(g.at, Num32(b, 4)) &&
      f.ext.port == Num16(b, m + 6) && f.ext.ip == b[m + 8..m + 24]
  }

  /** A message is granted as the datagram's bytes say. */
  lemma GrantReads(f: Flow, srv: Server, g: Datagram)
    requires ValidMsg(g.bytes) && Parse(g.bytes).Some? && (f.kd.op == OP_MAP || f.kd.op == OP_PEER)
    requires var m := Completed(Parse(g.bytes).value, srv, g);
      m.result == 0 && GrantedBy(f, Resolved(srv, m)) && (m.version != 0 ==> m.kd.op == f.kd.op)
    ensures MappedBy(f, g, srv.natpmpExt)
  {
    hide Parse, Num16, Num32;
    if g.bytes[0] == 0 {
      NatPmpResponseReads(g.bytes);
    } else {
      ResponseReads(g.bytes);
    }
  }

  /** A response found by its key is for a flow of its opcode. */
  lemma TargetKind(w: World, s: nat, m: Msg)
    requires Wired(w) && s < |w.servers| && Target(w, s, m).Some? && m.version != 0
    ensures w.flows[Target(w, s, m).value].kd.op == m.kd.op
  {
    hide Bucket;
  }

  /** End to end: a success read from a datagram leaves the flow that awaited it, after the whole pulse, mapped by its bytes. */
  lemma DatagramGrants(w: World, a: Action, id: nat)
    requires AtRest(w) && Enabled(w, a) && Succeeds(w, a, id)
    requires w.flows[id].kd.op == OP_MAP || w.flows[id].kd.op == OP_PEER
    ensures id in Step(w, a).flows && MappedBy(Step(w, a).flows[id], a.g.value, w.servers[w.flows[id].server].natpmpExt)
  {
    hide TableOk, PingsOk, FlowOk, Step, Parse, ValidMsg, MappedBy, ServerByIp, Target, Listens, Resolved, Completed;
    BeatGrants(w, a, id);
    var r := Delivered(w, a.g).value;
    assert r.m == Completed(Parse(a.g.value.bytes).value, w.servers[r.s], a.g.value);
    if r.m.version != 0 {
      TargetKind(w, r.s, r.m);
    }
    GrantReads(Step(w, a).flows[id], w.servers[r.s], a.g.value);
  }

  /** The address announced last is the one in bytes 8 to 12 of a NAT-PMP announce, once its server has been driven. */
  lemma AnnounceReads(w: World, g: Datagram, now: int, env: Env)
    requires AtRest(w) && Still(env, now) && Deliver(w, g).Some? && g.bytes[0] == 0 && |g.bytes| == 12
    requires var a := Deliver(w, g).value; Listens(w.servers[a.s], a.m, now)
    ensures var a := Deliver(w, g).value;
      Iter(w, a.s, IoEvent(a.m), now, env).servers[a.s].natpmpExt == g.bytes[8..12]
  {
    hide Iter, TableOk, PingsOk, FlowOk, Parse, ServerByIp, RestartNoticed, Listens;
    var a := Deliver(w, g).value;
    Service.BaselineMoves(w, a.s, a.m, now, env);
    NatPmpResponseReads(g.bytes);
  }

  /** Flow f holds the lifetime and the mapping that the peer gave for request r, received at second `at`. */
  predicate HoldsGiven(f: Flow, r: Wire.Request, reply: Reply, at: nat, announced: V4) {
    f.recvEnd == EndOf(at, GivenLifetime(r, reply)) && f.ext.port == GivenExt(r, reply).port &&
    f.ext.ip == if reply.NatPmpReply? then Zeros(10) + [255, 255] + announced else GivenExt(r, reply).ip
  }

  /**
   Over whole runs: a flow was opened at step i; the request made of it, at any version that can
   express it, is answered with success; the pulse at step j delivers the answer from the flow's
   server to the flow's address. Then a flow with that very key holds the lifetime and mapping
   that the peer gave, unless it awaited no answer.
   */
  lemma RequestIsGranted(ws: seq<World>, acts: seq<Action>, i: nat, j: nat, id: nat,
                         g: Datagram, version: Byte, r: Wire.Request, reply: Reply)
    requires IsRun(ws, acts) && i < j < |acts| && acts[i].Open? && id !in ws[i].flows
    requires Undisturbed(ws, acts, i + 1, j, id)
    requires r.kd == ws[j].flows[id].kd && IsReply(g.bytes, version, r, reply) && reply.result == 0
    requires Arrives(g, ws[j].servers[ws[j].flows[id].server], r.kd)
    requires ServerByIp(ws[j].servers, g.fromIp, g.fromScope, 0) == Some(ws[j].flows[id].server)
    requires acts[j].Beat? && acts[j].g == Some(g)
    requires ws[j].servers[ws[j].flows[id].server].state in {WaitIo, WaitPingResp}
    ensures var announced := ws[j].servers[ws[j].flows[id].server].natpmpExt;
      exists t :: t <= id && t in ws[j].flows && t in ws[j + 1].flows && ws[j].flows[t].kd == r.kd &&
        (Awaits(ws[j].flows[t]) ==> HoldsGiven(ws[j + 1].flows[t], r, reply, g.at, announced))
  {
    assert id in ws[j].flows && ws[j].flows[id].server < |ws[j].servers|;
    hide Target, IsReply, Undisturbed, Follows, Arrives, Step, ServerByIp, Delivered, Dangles, TableOk, PingsOk, FlowOk,
         GivenExt, Awaits, Parse, ValidMsg, GivenLifetime, HoldsGiven;
    RequestFindsItsFlow(ws, acts, i, j, id, g, version, r, reply);
    RunKeeps(ws, acts, j);
    GivenHere(ws[j], acts[j], ws[j].flows[id].server, g, version, r, reply);
  }

  /** The pulse that delivers the reply. */
  lemma GivenHere(w: World, a: Action, s: nat, g: Datagram, version: Byte, r: Wire.Request, reply: Reply)
    requires AtRest(w) && Enabled(w, a) && a.Beat? && a.g == Some(g)
    requires IsReply(g.bytes, version, r, reply) && reply.result == 0
    requires ServerByIp(w.servers, g.fromIp, g.fromScope, 0) == Some(s) && w.servers[s].state in {WaitIo, WaitPingResp}
    requires Delivered(w, Some(g)).Some?
    requires var m := Delivered(w, Some(g)).value.m;
      m.result == 0 && m.version == version && m.receivedTime == g.at && m.lifetime == GivenLifetime(r, reply) &&
      m.ext == GivenExt(r, reply)
    requires var m := Delivered(w, Some(g)).value;
      Target(w, m.s, m.m).Some? && w.flows[Target(w, m.s, m.m).value].kd == r.kd
    ensures var t := Target(w, Delivered(w, Some(g)).value.s, Delivered(w, Some(g)).value.m).value;
      t in w.flows && t in Step(w, a).flows &&
      (Awaits(w.flows[t]) ==> HoldsGiven(Step(w, a).flows[t], r, reply, g.at, w.servers[s].natpmpExt))
  {
    hide Target, IsReply, Step, ServerByIp, Delivered, TableOk, PingsOk, FlowOk, Listens, GivenExt, Parse, ValidMsg;
    var m := Delivered(w, Some(g)).value;
    var t := Target(w, m.s, m.m).value;
    StepKeepsFlow(w, a, t);
    ReplyDelivered(w, s, g, version, r, reply);
    if Awaits(w.flows[t]) {
      ServiceListens(w.servers[m.s], m.m, a.t.now);
      BeatGrants(w, a, t);
    }
  }

  /** A reply is delivered as a message of its server, for the opcode that was asked. */
  lemma ReplyDelivered(w: World, s: nat, g: Datagram, version: Byte, r: Wire.Request, reply: Reply)
    requires IsReply(g.bytes, version, r, reply) && ServerByIp(w.servers, g.fromIp, g.fromScope, 0) == Some(s)
    requires Delivered(w, Some(g)).Some?
    ensures var a := Delivered(w, Some(g)).value; a.s == s && a.m.kd.op == r.kd.op
    ensures r.kd.op in {OP_MAP, OP_PEER} && (version == 0 <==> reply.NatPmpReply?)
  {
    hide Parse, ValidMsg, ServerByIp;
    ReplyCarries(g, version, r, reply);
  }

  lemma ServiceListens(srv: Server, m: Msg, now: int)
    requires srv.state in {WaitIo, WaitPingResp} && m.result == 0
    ensures Listens(srv, m, now)
  {
  }

  /** A pulse removes no flow. */
  lemma StepKeepsFlow(w: World, a: Action, id: nat)
    requires AtRest(w) && Enabled(w, a) && a.Beat? && id in w.flows
    ensures id in Step(w, a).flows
  {
    hide AtRest, PulseRun, Delivered, FlowMoves;
    PulseKeeps(w, Delivered(w, a.g), a.t, a.d, a.tout);
  }
}
