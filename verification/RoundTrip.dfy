/** From a flow's request to the flow again: which answers reach the flow they were made for. */
module RoundTrip {
  import opened Base
  import opened FlowKey
  import opened FlowMachine
  import opened FlowRuns
  import opened ServerMachine
  import opened ServerRuns
  import opened Drive
  import opened Pulse
  import opened Parser
  import opened Client
  import opened ClientRuns
  import opened ServerArray
  import Wire
  import Echo

  // ------------------------------------------------------ the flow's key

  /** Flow id is filed under its own key, and the key names the server it belongs to. */
  ghost predicate KeyFits(w: World, id: nat) {
    id in w.flows && var f := w.flows[id];
    f.server < |w.servers| && f.bucket == Bucket(f.kd) && KeyShape(f.kd) &&
    f.kd.serverIp == w.servers[f.server].ip && f.kd.nonce == w.servers[f.server].nonce
  }

  lemma OpenedOn(w: World, s: nat, kd: Key, lifetime: U32, ext: Ext, now: int, id: nat)
    requires AtRest(w) && s < |w.servers| && KeyShape(kd)
    requires id !in w.flows && id in NewFlowOn(w, s, kd, lifetime, ext, now).flows
    ensures KeyFits(NewFlowOn(w, s, kd, lifetime, ext, now), id)
  {
    hide TableOk, PingsOk, FlowOk, Bucket, AddFlow;
  }

  /** Moving on keeps a flow's key fitting. */
  lemma EvolvedFits(w: World, w': World, hot: Option<nat>, id: nat)
    requires KeyFits(w, id) && FlowsEvolve(w, w', hot)
    ensures KeyFits(w', id)
  {
    hide Bucket, KeepsGrant;
    assert FlowMoves(w.flows[id], w'.flows[id], hot);
  }

  lemma AddedFits(w: World, w': World, id: nat)
    requires KeyFits(w, id) && OnlyAdds(w, w')
    ensures KeyFits(w', id)
  {
    hide Bucket;
  }

  /** Every flow that pcp_new_flow adds is filed under its own key. */
  lemma {:induction false} OpenedFits(w: World, k: nat, kd: Key, lifetime: U32, ext: Ext, now: int, id: nat)
    requires AtRest(w) && k <= |w.servers| && KeyShape(kd)
    requires id !in w.flows && id in NewFlow(w, k, kd, lifetime, ext, now).flows
    ensures KeyFits(NewFlow(w, k, kd, lifetime, ext, now), id)
    decreases |w.servers| - k
  {
    hide TableOk, PingsOk, FlowOk, Bucket, NewFlowOn, KeyFits, OnlyAdds, KeyShape;
    if k < |w.servers| {
      var w1 := NewFlowOn(w, k, kd, lifetime, ext, now);
      NewFlowOnKeeps(w, k, kd, lifetime, ext, now);
      if id in w1.flows {
        OpenedOn(w, k, kd, lifetime, ext, now, id);
        OpenKeeps(w1, k + 1, kd, lifetime, ext, now);
        AddedFits(w1, NewFlow(w, k, kd, lifetime, ext, now), id);
      } else {
        OpenedFits(w1, k + 1, kd, lifetime, ext, now, id);
      }
    }
  }

  /** A flow's key goes on fitting through every call but a new nonce, as long as its server is registered. */
  lemma FitsStep(w: World, a: Action, id: nat)
    requires AtRest(w) && Enabled(w, a) && KeyFits(w, id) && id in Step(w, a).flows
    requires !(a.SetNonce? && a.id == id) && w.servers[w.flows[id].server].state != Uninit
    ensures KeyFits(Step(w, a), id)
  {
    hide TableOk, PingsOk, FlowOk, NewFlow, PulseRun, Bucket, KeyShape, Delivered, KeepsGrant, SameServer;
    match a
    case Beat(g, t, d, tout) =>
      PulseKeeps(w, Delivered(w, g), t, d, tout);
      EvolvedFits(w, Step(w, a), Answered(w, Delivered(w, g)), id);
    case Open(kd, lifetime, ext, now) =>
      OpenKeeps(w, 0, kd, lifetime, ext, now);
      AddedFits(w, Step(w, a), id);
    case _ =>
  }

  // --------------------------------------------------------- the lookup

  /** Lookup finds the oldest flow with the key. */
  lemma {:induction false} LookupIsOldest(w: World, kd: Key, s: nat, k: nat, id: nat)
    requires TableOk(w) && k <= |w.order| && id in w.order[k..] && KeyMatches(w.flows[id], kd, s)
    ensures var r := Lookup(w, kd, s, w.order[k..]); r.Some? && r.value <= id
    decreases |w.order| - k
  {
    hide Bucket;
    var ids := w.order[k..];
    var j :| 0 <= j < |ids| && ids[j] == id;
    assert ids[0] == w.order[k] && ids[1..] == w.order[k + 1..] && id == w.order[k + j];
    if KeyMatches(w.flows[ids[0]], kd, s) {
      assert j > 0 ==> Precedes(w.flows[w.order[k]], w.flows[w.order[k + j]]);
    } else {
      assert id == ids[1..][j - 1];
      LookupIsOldest(w, kd, s, k + 1, id);
    }
  }

  /** The datagram arrived where the flow's request was sent from. */
  predicate Arrives(g: Datagram, srv: Server, kd: Key) {
    if IsAny(g.toIp) then srv.srcIp == kd.srcIp && g.fromScope == kd.scope
    else g.toIp == kd.srcIp && g.toScope == kd.scope
  }

  /** The datagram g carries an answer to kd, as any peer that echoes a version v request gives it. */
  ghost predicate Carries(g: Datagram, v: Byte, kd: Key) {
    ValidMsg(g.bytes) && Parse(g.bytes).Some? && Parse(g.bytes).value.version == v <= 2 &&
    Parse(g.bytes).value.kd == Echo.EchoedKey(v, kd)
  }

  /** The key of the completed answer is the flow's own exactly when it arrived at the flow's address. */
  lemma CompletedKey(w: World, id: nat, g: Datagram, v: Byte)
    requires KeyFits(w, id) && Carries(g, v, w.flows[id].kd)
    ensures var f := w.flows[id]; var srv := w.servers[f.server];
      Completed(Parse(g.bytes).value, srv, g).kd == f.kd <==> Arrives(g, srv, f.kd)
  {
    hide Parse, ValidMsg, Bucket;
  }

  /**
   An answer reaches the flow it was made for: delivered from the flow's server it targets a flow
   with that very key on that server, and the oldest such flow, exactly when it arrived at the
   flow's own address.
   */
  lemma AnswerFindsFlow(w: World, id: nat, g: Datagram, v: Byte)
    requires AtRest(w) && KeyFits(w, id) && Carries(g, v, w.flows[id].kd)
    requires ServerByIp(w.servers, g.fromIp, g.fromScope, 0) == Some(w.flows[id].server)
    ensures var f := w.flows[id]; var r := Delivered(w, Some(g));
      r.Some? && r.value.s == f.server &&
      (var t := Target(w, r.value.s, r.value.m);
       (t.Some? && w.flows[t.value].kd == f.kd && w.flows[t.value].server == f.server && t.value <= id)
       <==> Arrives(g, w.servers[f.server], f.kd))
  {
    hide Parse, ValidMsg, Bucket, TableOk, PingsOk, FlowOk, ServerByIp, Arrives;
    CompletedKey(w, id, g, v);
    var f, m := w.flows[id], Delivered(w, Some(g)).value.m;
    assert m.kd.op == f.kd.op;
    if m.kd == f.kd {
      LookupAtMost(w, f.kd, f.server, id);
    }
  }

  // ------------------------------------------------------------ replies

  /** What a peer adds to a request when it answers: as the test server does, or as section 3.3 of RFC 6886 says. */
  datatype Reply =
    | PcpReply(result: U16, epoch: U32, peer: Echo.PeerInfo)
    | NatPmpReply(result: U16, epoch: U32, port: U16, lifetime: U32)

  /** The requests that a version can express and a peer answers. */
  predicate Expressible(version: Byte, kd: Key) {
    (kd.op == OP_MAP || kd.op == OP_PEER) && version <= 2 && (version == 0 ==> !Wire.Inexpressible(kd))
  }

  /** bytes are the peer's answer to the message that the builder makes of r. */
  ghost predicate IsReply(bytes: seq<Byte>, version: Byte, r: Wire.Request, reply: Reply) {
    Expressible(version, r.kd) &&
    var msg := Wire.Build(version, r);
    msg.Some? &&
    if version == 0 then
      reply.NatPmpReply? && |msg.value| == 12 && msg.value[1] < 128 &&
      bytes == Echo.NatPmpResponse(msg.value, reply.result, reply.epoch, reply.port, reply.lifetime)
    else
      reply.PcpReply? && reply.result < 256 && reply.result != 1 && Echo.Answerable(msg.value) &&
      bytes == Echo.Respond(msg.value, reply.result, reply.epoch, reply.peer)
  }

  /** The lifetime an answer grants: a NAT-PMP peer sets it, the test server echoes the one asked for. */
  function GivenLifetime(r: Wire.Request, reply: Reply): U32 {
    if reply.NatPmpReply? then reply.lifetime else r.lifetime
  }

  /** The external port and address in an answer; NAT-PMP names no address, and the test server overwrites that of a MAP. */
  function GivenExt(r: Wire.Request, reply: Reply): Ext {
    if reply.NatPmpReply? then Ext(Zeros(16), reply.port)
    else if r.kd.op == OP_MAP then Ext(reply.peer.ext, r.ext.port)
    else r.ext
  }

  /** A peer's answer carries the request's key, at every version, with what the peer grants. */
  lemma ReplyCarries(g: Datagram, version: Byte, r: Wire.Request, reply: Reply)
    requires IsReply(g.bytes, version, r, reply)
    ensures Carries(g, version, r.kd)
    ensures var f := Parse(g.bytes).value;
      f.result == reply.result && f.epoch == reply.epoch && f.lifetime == GivenLifetime(r, reply) &&
      f.ext == GivenExt(r, reply)
  {
    hide Parse, ValidMsg, Echo.Respond, Wire.PcpRequest, Echo.NatPmpResponse, Wire.NatPmpRequest;
    if version == 0 {
      Echo.NatPmpEchoParses(r, reply.result, reply.epoch, reply.port, reply.lifetime);
    } else {
      Echo.EchoParses(version, r, reply.result, reply.epoch, reply.peer);
    }
  }

  /** Every expressible request has an answer, so the statements below are about something. */
  lemma ReplyExists(version: Byte, r: Wire.Request, reply: Reply) returns (bytes: seq<Byte>)
    requires Expressible(version, r.kd)
    requires if version == 0 then reply.NatPmpReply? else reply.PcpReply? && reply.result < 256 && reply.result != 1
    ensures IsReply(bytes, version, r, reply)
  {
    hide Parse, ValidMsg, Echo.Respond, Wire.PcpRequest, Echo.NatPmpResponse, Wire.NatPmpRequest, Echo.Answerable;
    if version == 0 {
      Echo.NatPmpEchoParses(r, reply.result, reply.epoch, reply.port, reply.lifetime);
      bytes := Echo.NatPmpResponse(Wire.NatPmpRequest(r), reply.result, reply.epoch, reply.port, reply.lifetime);
    } else {
      Echo.EchoParses(version, r, reply.result, reply.epoch, reply.peer);
      bytes := Echo.Respond(Wire.PcpRequest(version, r), reply.result, reply.epoch, reply.peer);
    }
  }

  // ----------------------------------------------------------- whole runs

  /** Flow id is in the table, its server registered, from world i to world j; no call overrides its nonce. */
  ghost predicate Undisturbed(ws: seq<World>, acts: seq<Action>, i: nat, j: nat, id: nat)
    requires |ws| == |acts| + 1 && i <= j < |ws|
  {
    && (forall k :: i <= k <= j ==> id in ws[k].flows && ws[k].flows[id].server < |ws[k].servers|)
    && (forall k :: i <= k <= j ==> ws[k].servers[ws[k].flows[id].server].state != Uninit)
    && (forall k :: i <= k < j ==> acts[k].SetNonce? ==> acts[k].id != id)
  }

  lemma {:induction false} FitsAlong(ws: seq<World>, acts: seq<Action>, i: nat, j: nat, id: nat)
    requires IsRun(ws, acts) && i <= j < |ws| && KeyFits(ws[i], id) && Undisturbed(ws, acts, i, j, id)
    ensures KeyFits(ws[j], id)
    decreases j
  {
    hide KeyFits, Step, AtRest, Dangles, Enabled;
    if i < j {
      FitsAlong(ws, acts, i, j - 1, id);
      RunKeeps(ws, acts, j - 1);
      FitsStep(ws[j - 1], acts[j - 1], id);
    }
  }

  /**
   Over whole runs: a flow opened at step i is found again at any later world j by an answer that
   carries its key, if that comes from the flow's server and arrives at its address, and no call
   in between overrode the flow's nonce.
   */
  lemma KeyFindsItsFlow(ws: seq<World>, acts: seq<Action>, i: nat, j: nat, id: nat, g: Datagram, v: Byte)
    requires IsRun(ws, acts) && i < j < |ws| && acts[i].Open? && id !in ws[i].flows
    requires Undisturbed(ws, acts, i + 1, j, id)
    requires Carries(g, v, ws[j].flows[id].kd) && Arrives(g, ws[j].servers[ws[j].flows[id].server], ws[j].flows[id].kd)
    requires ServerByIp(ws[j].servers, g.fromIp, g.fromScope, 0) == Some(ws[j].flows[id].server)
    ensures AtRest(ws[j])
    ensures var r := Delivered(ws[j], Some(g));
      r.Some? &&
      (var t := Target(ws[j], r.value.s, r.value.m);
       t.Some? && t.value <= id && ws[j].flows[t.value].kd == ws[j].flows[id].kd)
  {
    hide KeyFits, Dangles, Delivered, Target, NewFlow, TableOk, PingsOk, FlowOk, ServerByIp;
    RunKeeps(ws, acts, i);
    var a := acts[i];
    OpenedFits(ws[i], 0, a.kd, a.lifetime, a.ext, a.now, id);
    FitsAlong(ws, acts, i + 1, j, id);
    RunKeeps(ws, acts, j);
    AnswerFindsFlow(ws[j], id, g, v);
  }

  /**
   The round trip: the request that the builder makes of a flow's key, at any version that can
   express it, answered by a peer, delivered at any later time from the flow's server to the
   flow's address, hands its result and epoch, the lifetime and mapping it grants and the second it
   was read to the oldest flow with that very key.
   */
  lemma RequestFindsItsFlow(ws: seq<World>, acts: seq<Action>, i: nat, j: nat, id: nat,
                            g: Datagram, version: Byte, r: Wire.Request, reply: Reply)
    requires IsRun(ws, acts) && i < j < |ws| && acts[i].Open? && id !in ws[i].flows
    requires Undisturbed(ws, acts, i + 1, j, id)
    requires r.kd == ws[j].flows[id].kd && IsReply(g.bytes, version, r, reply)
    requires Arrives(g, ws[j].servers[ws[j].flows[id].server], r.kd)
    requires ServerByIp(ws[j].servers, g.fromIp, g.fromScope, 0) == Some(ws[j].flows[id].server)
    ensures AtRest(ws[j])
    ensures var a := Delivered(ws[j], Some(g));
      a.Some? && a.value.m.result == reply.result && a.value.m.epoch == reply.epoch &&
      a.value.m.lifetime == GivenLifetime(r, reply) && a.value.m.ext == GivenExt(r, reply) &&
      a.value.m.receivedTime == g.at && a.value.m.version == version &&
      (var t := Target(ws[j], a.value.s, a.value.m);
       t.Some? && t.value <= id && ws[j].flows[t.value].kd == r.kd)
  {
    hide AtRest, Target, IsReply, Parse, ValidMsg, Undisturbed, IsRun, Arrives;
    ReplyCarries(g, version, r, reply);
    KeyFindsItsFlow(ws, acts, i, j, id, g, version);
  }

  // ------------------------------------------------ an overridden nonce

  /** The override leaves the flow where answers at version v are looked up. */
  predicate NonceKept(w: World, id: nat, nonce: Nonce, v: Byte)
    requires id in w.flows && w.flows[id].server < |w.servers|
  {
    var kd := w.flows[id].kd;
    nonce == w.servers[w.flows[id].server].nonce || (v == 2 && Bucket(kd.(nonce := nonce)) == Bucket(kd))
  }

  /** An older flow of the same server is found under key kd. */
  ghost predicate OlderTwin(w: World, id: nat, kd: Key)
    requires id in w.flows
  {
    exists j :: j in w.flows && j < id && KeyMatches(w.flows[j], kd, w.flows[id].server)
  }

  /** Before version 2 the pulse puts the server's own nonce in the answer's key. */
  lemma OverriddenKey(w: World, id: nat, nonce: Nonce, g: Datagram, v: Byte)
    requires KeyFits(w, id) && var kd := w.flows[id].kd.(nonce := nonce);
      Carries(g, v, kd) && Arrives(g, w.servers[w.flows[id].server], kd)
    ensures var kd := w.flows[id].kd.(nonce := nonce); var srv := w.servers[w.flows[id].server];
      Completed(Parse(g.bytes).value, srv, g).kd == kd.(nonce := if v < 2 then srv.nonce else nonce)
  {
    hide Parse, ValidMsg, Bucket;
  }

  /** In a table where flow id does or does not match, the lookup returns it exactly if it does and no older flow does. */
  lemma LookupReturns(w: World, kd: Key, s: nat, id: nat)
    requires TableOk(w) && id in w.flows
    ensures Lookup(w, kd, s, w.order) == Some(id) <==>
            KeyMatches(w.flows[id], kd, s) && !exists j :: j in w.flows && j < id && KeyMatches(w.flows[j], kd, s)
  {
    hide KeyMatches, Lookup;
    forall j | j in w.flows && KeyMatches(w.flows[j], kd, s)
      ensures var r := Lookup(w, kd, s, w.order); r.Some? && r.value <= j
    {
      LookupAtMost(w, kd, s, j);
    }
  }

  /** An answer to the new key, as it is delivered. */
  lemma DeliveredOverride(w: World, id: nat, nonce: Nonce, g: Datagram, v: Byte)
    requires KeyFits(w, id) && var kd := w.flows[id].kd.(nonce := nonce);
      Carries(g, v, kd) && Arrives(g, w.servers[w.flows[id].server], kd)
    requires ServerByIp(w.servers, g.fromIp, g.fromScope, 0) == Some(w.flows[id].server)
    ensures var a := Delivered(NonceSet(w, id, nonce), Some(g)); var f := w.flows[id];
      a.Some? && a.value.s == f.server && a.value.m.version == v &&
      a.value.m.kd == f.kd.(nonce := if v < 2 then w.servers[f.server].nonce else nonce)
  {
    OverriddenKey(w, id, nonce, g, v);
    hide Parse, ValidMsg, Bucket, ServerByIp, Arrives;
  }

  /** The lookup of such an answer. */
  lemma OverriddenLookup(w: World, id: nat, nonce: Nonce, v: Byte)
    requires KeyFits(w, id) && v <= 2 && TableOk(NonceSet(w, id, nonce))
    ensures var w', kd := NonceSet(w, id, nonce), w.flows[id].kd.(nonce := nonce); var s := w.flows[id].server;
      var t := Lookup(w', kd.(nonce := if v < 2 then w.servers[s].nonce else nonce), s, w'.order);
      (t == Some(id) <==> NonceKept(w, id, nonce, v) && !OlderTwin(w, id, kd)) &&
      ((t.Some? && t.value <= id && w'.flows[t.value].kd == kd) <==>
       NonceKept(w, id, nonce, v) || (v == 2 && OlderTwin(w, id, kd)))
  {
    hide Bucket, Lookup, Precedes;
    var w', kd := NonceSet(w, id, nonce), w.flows[id].kd.(nonce := nonce);
    var s := w.flows[id].server;
    var key := kd.(nonce := if v < 2 then w.servers[s].nonce else nonce);
    assert forall j :: j in w.flows && j != id ==> w'.flows[j] == w.flows[j];
    LookupReturns(w', key, s, id);
    var t := Lookup(w', key, s, w'.order);
    if t.Some? && t.value < id && w'.flows[t.value].kd == kd {
      assert KeyMatches(w.flows[t.value], kd, s);
    }
    if OlderTwin(w, id, kd) && key == kd {
      var j :| j in w.flows && j < id && KeyMatches(w.flows[j], kd, s);
      LookupAtMost(w', kd, s, j);
    }
  }

  lemma LookupAtMost(w: World, kd: Key, s: nat, j: nat)
    requires TableOk(w) && j in w.flows && KeyMatches(w.flows[j], kd, s)
    ensures var r := Lookup(w, kd, s, w.order); r.Some? && r.value <= j
  {
    hide KeyMatches, Lookup;
    assert w.order[0..] == w.order;
    LookupIsOldest(w, kd, s, 0, j);
  }

  /**
   After an override, an answer to the flow's new key reaches the flow itself exactly when the
   nonce is the server's own, or the answer is of version 2 and the bucket happens to be the same,
   and no older flow is found first. A flow with that key, no younger, is reached exactly then or
   when, at version 2, an older one was filed under it.
   */
  lemma NonceOverride(w: World, id: nat, nonce: Nonce, g: Datagram, v: Byte)
    requires AtRest(w) && KeyFits(w, id)
    requires var kd := w.flows[id].kd.(nonce := nonce);
      Carries(g, v, kd) && Arrives(g, w.servers[w.flows[id].server], kd)
    requires ServerByIp(w.servers, g.fromIp, g.fromScope, 0) == Some(w.flows[id].server)
    ensures var w', kd := NonceSet(w, id, nonce), w.flows[id].kd.(nonce := nonce);
      AtRest(w') && Delivered(w', Some(g)).Some? &&
      (var a := Delivered(w', Some(g)).value;
       var t := Target(w', a.s, a.m);
       (t == Some(id) <==> NonceKept(w, id, nonce, v) && !OlderTwin(w, id, kd)) &&
       ((t.Some? && t.value <= id && w'.flows[t.value].kd == kd) <==>
        NonceKept(w, id, nonce, v) || (v == 2 && OlderTwin(w, id, kd))))
  {
    NonceKeeps(w, id, nonce);
    hide Parse, ValidMsg, Bucket, TableOk, PingsOk, FlowOk, ServerByIp, Lookup, Arrives, Delivered, NonceKept, OlderTwin;
    DeliveredOverride(w, id, nonce, g, v);
    OverriddenLookup(w, id, nonce, v);
  }

  /** No message of any server is meant for flow id. */
  ghost predicate Lost(w: World, id: nat)
    requires Wired(w)
  {
    forall s: nat, m: Msg | s < |w.servers| :: Target(w, s, m) != Some(id)
  }

  /** A nonce that moves the key to another bucket. */
  function LosingNonce(kd: Key): (n: Nonce)
    ensures Bucket(kd.(nonce := n)) != Bucket(kd)
  {
    hide Bucket;
    NonceMovesBucket(kd);
    if Bucket(kd.(nonce := kd.nonce[0 := 0])) == Bucket(kd) then kd.nonce[0 := 1] else kd.nonce[0 := 0]
  }

  /** Flow id lies outside the bucket of its key. */
  ghost predicate Misfiled(w: World, id: nat) {
    id in w.flows && w.flows[id].bucket != Bucket(w.flows[id].kd) && w.flows[id].kd.op != OP_ANNOUNCE
  }

  /** Such a flow is no message's target. */
  lemma MisfiledIsLost(w: World, id: nat)
    requires Wired(w) && Misfiled(w, id)
    ensures Lost(w, id)
  {
    hide Bucket, TableOk, PingsOk, Lookup;
  }

  lemma EvolvedMisfiled(w: World, w': World, hot: Option<nat>, id: nat)
    requires Misfiled(w, id) && FlowsEvolve(w, w', hot)
    ensures Misfiled(w', id)
  {
    hide Bucket, KeepsGrant;
    assert FlowMoves(w.flows[id], w'.flows[id], hot);
  }

  /** It stays lost through every call but a new nonce. */
  lemma MisfiledStep(w: World, a: Action, id: nat)
    requires AtRest(w) && Enabled(w, a) && Misfiled(w, id) && id in Step(w, a).flows && !(a.SetNonce? && a.id == id)
    ensures Misfiled(Step(w, a), id)
  {
    hide TableOk, PingsOk, FlowOk, NewFlow, PulseRun, Bucket, Delivered, Enrolled, ServerByIp;
    match a
    case Beat(g, t, d, tout) =>
      PulseKeeps(w, Delivered(w, g), t, d, tout);
      EvolvedMisfiled(w, Step(w, a), Answered(w, Delivered(w, g)), id);
    case Open(kd, lifetime, ext, now) => OpenKeeps(w, 0, kd, lifetime, ext, now);
    case _ =>
  }

  /** Flow id is in the table from world i to world j and no call overrides its nonce. */
  ghost predicate NonceStands(ws: seq<World>, acts: seq<Action>, i: nat, j: nat, id: nat)
    requires |ws| == |acts| + 1 && i <= j < |ws|
  {
    (forall k :: i <= k <= j ==> id in ws[k].flows) && forall k :: i <= k < j ==> acts[k].SetNonce? ==> acts[k].id != id
  }

  lemma {:induction false} MisfiledAlong(ws: seq<World>, acts: seq<Action>, i: nat, j: nat, id: nat)
    requires IsRun(ws, acts) && i <= j < |ws| && Misfiled(ws[i], id) && NonceStands(ws, acts, i, j, id)
    ensures Misfiled(ws[j], id)
    decreases j
  {
    hide Misfiled, Step, AtRest, Dangles, Enabled;
    if i < j {
      MisfiledAlong(ws, acts, i, j - 1, id);
      RunKeeps(ws, acts, j - 1);
      MisfiledStep(ws[j - 1], acts[j - 1], id);
    }
  }

  /**
   Every flow has a nonce that loses it: set in any run, no message of any server is meant for the
   flow from then on, until it is deleted or its nonce is set again.
   */
  lemma NonceOverrideLoses(ws: seq<World>, acts: seq<Action>, i: nat, j: nat, id: nat)
    requires IsRun(ws, acts) && i < j < |ws| && KeyFits(ws[i], id)
    requires acts[i] == SetNonce(id, LosingNonce(ws[i].flows[id].kd)) && NonceStands(ws, acts, i + 1, j, id)
    ensures AtRest(ws[j]) && Lost(ws[j], id)
  {
    hide Bucket, TableOk, PingsOk, FlowOk, Lost, Dangles, LosingNonce;
    RunKeeps(ws, acts, i);
    assert Misfiled(ws[i + 1], id);
    MisfiledAlong(ws, acts, i + 1, j, id);
    RunKeeps(ws, acts, j);
    MisfiledIsLost(ws[j], id);
  }

  // ------------------------------------------------ unreachable servers

  /** The slot that a registration uses. */
  function SlotFor(w: World, ip: Ip, scope: U32, nonce: Nonce): nat {
    match ServerByIp(w.servers, ip, scope, 0)
    case Some(s) => s
    case None => Enrolled(w.servers, ip, scope, nonce).1
  }

  /** The scope that a registration leaves its server with. */
  function ScopeLeft(ip: Ip, scope: U32, source: Source): U32 {
    if ScopeFor(ip, scope) == 0 && IsLinkLocal(source.ip) then source.scope else ScopeFor(ip, scope)
  }

  /** Some live server below slot i has this address and scope. */
  ghost predicate Shadowed(servers: seq<Server>, i: nat, ip: Ip, scope: U32) {
    exists j :: 0 <= j < i && j < |servers| && servers[j].state != Uninit && servers[j].ip == ip && servers[j].scope == scope
  }

  /**
   What a registration makes of the servers: one slot is written, the others stay. The server waits to be
   pinged, without a deadline, from its local address at the version asked for. A known one keeps its nonce
   and epoch baseline, a new one has the nonce drawn for it and no baseline.
   */
  lemma RegisteredAt(w: World, ip: Ip, scope: U32, version: nat, source: Source, nonce: Nonce)
    requires version <= MAX_VERSION
    ensures var r := AddServer(w, ip, scope, version, Some(source), nonce); var i := SlotFor(w, ip, scope, nonce);
      i < |r.servers| && |w.servers| <= |r.servers| && r.servers[i].state == Ping &&
      r.servers[i].ip == ip && r.servers[i].scope == ScopeLeft(ip, scope, source) &&
      r.servers[i].nextTimeout == 0 && r.servers[i].version == version && r.servers[i].srcIp == source.ip &&
      (if ServerByIp(w.servers, ip, scope, 0).Some?
       then i < |w.servers| && r.servers[i].nonce == w.servers[i].nonce && r.servers[i].epoch == w.servers[i].epoch &&
            r.servers[i].cepoch == w.servers[i].cepoch && r.servers[i].ping == w.servers[i].ping
       else r.servers[i].nonce == nonce && r.servers[i].epoch == 0xffff_ffff) &&
      forall j :: 0 <= j < |r.servers| && j != i ==> r.servers[j] == if j < |w.servers| then w.servers[j] else BLANK.srv
  {
    hide ServerByIp, Enrolled;
  }

  /** The lookup returns slot i exactly if it is reached and no slot below it is. */
  lemma FoundAt(servers: seq<Server>, ip: Ip, scope: U32, i: nat)
    requires i < |servers|
    ensures ServerByIp(servers, ip, scope, 0) == Some(i) <==>
            Reaches(servers[i], ip, scope) && forall j :: 0 <= j < i ==> !Reaches(servers[j], ip, scope)
  {
    hide ServerByIp, Reaches;
    var r := ServerByIp(servers, ip, scope, 0);
  }

  /** At scope sc, exactly when that is the scope it was left with. */
  lemma ReachableAt(w: World, ip: Ip, scope: U32, version: nat, source: Source, nonce: Nonce, sc: U32)
    requires version <= MAX_VERSION
    ensures var r := AddServer(w, ip, scope, version, Some(source), nonce); var i := SlotFor(w, ip, scope, nonce);
      var left := ScopeLeft(ip, scope, source);
      ServerByIp(r.servers, ip, sc, 0) == Some(i) <==> ScopeFor(ip, sc) == left && !Shadowed(w.servers, i, ip, left)
  {
    hide ServerByIp, Enrolled, AddServer, SlotFor, ScopeLeft;
    RegisteredAt(w, ip, scope, version, source, nonce);
    var r, i := AddServer(w, ip, scope, version, Some(source), nonce), SlotFor(w, ip, scope, nonce);
    FoundAt(r.servers, ip, sc, i);
    if ScopeFor(ip, sc) == ScopeLeft(ip, scope, source) {
      forall j | 0 <= j < i
        ensures Reaches(r.servers[j], ip, sc) <==>
          j < |w.servers| && w.servers[j].state != Uninit && w.servers[j].ip == ip && w.servers[j].scope == ScopeFor(ip, sc)
      {
      }
    }
  }

  /**
   A registered server is found by its address, at some scope, exactly when that address is
   link-local or the server was left without a scope, and no live server in a lower slot has the
   same address and scope.
   */
  lemma ReachableServers(w: World, ip: Ip, scope: U32, version: nat, source: Source, nonce: Nonce)
    requires version <= MAX_VERSION
    ensures var r := AddServer(w, ip, scope, version, Some(source), nonce); var i := SlotFor(w, ip, scope, nonce);
      (exists sc: U32 :: ServerByIp(r.servers, ip, sc, 0) == Some(i)) <==>
      (IsLinkLocal(ip) || ScopeLeft(ip, scope, source) == 0) && !Shadowed(w.servers, i, ip, ScopeLeft(ip, scope, source))
  {
    hide ServerByIp, Enrolled, AddServer, SlotFor, ScopeLeft, Shadowed;
    var r, i := AddServer(w, ip, scope, version, Some(source), nonce), SlotFor(w, ip, scope, nonce);
    var left := ScopeLeft(ip, scope, source);
    forall sc: U32
      ensures ServerByIp(r.servers, ip, sc, 0) == Some(i) <==> ScopeFor(ip, sc) == left && !Shadowed(w.servers, i, ip, left)
    {
      ReachableAt(w, ip, scope, version, source, nonce, sc);
    }
    if (IsLinkLocal(ip) || left == 0) && !Shadowed(w.servers, i, ip, left) {
      assert ServerByIp(r.servers, ip, left, 0) == Some(i);
    }
  }

  /**
   A registration hides a server that was found before exactly when it leaves a server with the
   same address and scope in a lower slot.
   */
  lemma HiddenServers(w: World, ip: Ip, scope: U32, version: nat, source: Source, nonce: Nonce, j: nat, ip': Ip, sc: U32)
    requires version <= MAX_VERSION && ServerByIp(w.servers, ip', sc, 0) == Some(j) && j != SlotFor(w, ip, scope, nonce)
    ensures var r := AddServer(w, ip, scope, version, Some(source), nonce); var i := SlotFor(w, ip, scope, nonce);
      ServerByIp(r.servers, ip', sc, 0) != Some(j) <==>
      i < j && ip' == ip && ScopeFor(ip', sc) == ScopeLeft(ip, scope, source)
  {
    hide ServerByIp, Enrolled, AddServer, SlotFor;
    RegisteredAt(w, ip, scope, version, source, nonce);
    var r := AddServer(w, ip, scope, version, Some(source), nonce);
    FoundAt(w.servers, ip', sc, j);
    FoundAt(r.servers, ip', sc, j);
  }

  /**
   Two registrations of one link-local address, at scope k and then at scope 0 from a local address
   of scope k, take two slots, and the second server is found at no scope at all.
   */
  lemma SecondIsShadowed(maxPing: nat, ip: Ip, k: U32, version: nat, source: Source, nonce: Nonce, nonce': Nonce)
    requires version <= MAX_VERSION && IsLinkLocal(ip) && k != 0 && IsLinkLocal(source.ip) && source.scope == k
    ensures var w1 := AddServer(Initial(maxPing), ip, k, version, Some(source), nonce);
      var w2 := AddServer(w1, ip, 0, version, Some(source), nonce');
      SlotFor(w1, ip, 0, nonce') == 1 && 1 < |w2.servers| && w2.servers[1].state == Ping &&
      forall sc: U32 :: ServerByIp(w2.servers, ip, sc, 0) != Some(1)
  {
    hide Shadowed;
    var w0 := Initial(maxPing);
    var w1 := AddServer(w0, ip, k, version, Some(source), nonce);
    var w2 := AddServer(w1, ip, 0, version, Some(source), nonce');
    RegisteredAt(w0, ip, k, version, source, nonce);
    RegisteredAt(w1, ip, 0, version, source, nonce');
    FirstSlot(w0, ip, k, nonce);
    SecondSlot(w1, ip, 0, nonce');
    assert Shadowed(w1.servers, 1, ip, k) by { assert w1.servers[0].scope == k; ShadowBy(w1.servers, 1, ip, k, 0); }
    ReachableServers(w1, ip, 0, version, source, nonce');
  }

  lemma ShadowBy(servers: seq<Server>, i: nat, ip: Ip, scope: U32, j: nat)
    requires j < i && j < |servers| && servers[j].state != Uninit && servers[j].ip == ip && servers[j].scope == scope
    ensures Shadowed(servers, i, ip, scope)
  {
  }

  /** The first registration of a client takes slot 0. */
  lemma FirstSlot(w: World, ip: Ip, scope: U32, nonce: Nonce)
    requires w.servers == []
    ensures SlotFor(w, ip, scope, nonce) == 0
  {
    hide ServerByIp, Enrolled;
    var r := Enrolled(w.servers, ip, scope, nonce);
  }

  /** With slot 0 alone in use and another address or scope, the next takes slot 1. */
  lemma SecondSlot(w: World, ip: Ip, scope: U32, nonce: Nonce)
    requires |w.servers| > 1 && w.servers[0].state != Uninit && w.servers[1].state == Uninit
    requires forall j :: 0 <= j < |w.servers| ==> !Reaches(w.servers[j], ip, scope)
    ensures SlotFor(w, ip, scope, nonce) == 1
  {
    hide ServerByIp, Enrolled, Reaches;
    var r := Enrolled(w.servers, ip, scope, nonce);
    assert r.1 > 0 && !(r.1 > 1);
  }

  /** In a slot that came free below a server found at scope k, a registration at scope 0 takes over its answers. */
  lemma FreedSlotHides(w: World, ip: Ip, k: U32, version: nat, source: Source, nonce: Nonce, j: nat)
    requires version <= MAX_VERSION && IsLinkLocal(ip) && k != 0 && IsLinkLocal(source.ip) && source.scope == k
    requires ServerByIp(w.servers, ip, k, 0) == Some(j) && ServerByIp(w.servers, ip, 0, 0).None?
    requires j > 0 && w.servers[0].state == Uninit
    ensures ServerByIp(AddServer(w, ip, 0, version, Some(source), nonce).servers, ip, k, 0) == Some(0)
  {
    hide ServerByIp, AddServer;
    assert SlotFor(w, ip, 0, nonce) == 0;
    RegisteredAt(w, ip, 0, version, source, nonce);
    FoundAt(AddServer(w, ip, 0, version, Some(source), nonce).servers, ip, k, 0);
  }

  /** No live server with this address is left without a scope, so none is found unless it is link-local. */
  ghost predicate Deaf(w: World, ip: Ip) {
    forall j :: 0 <= j < |w.servers| && w.servers[j].state != Uninit && w.servers[j].ip == ip ==> w.servers[j].scope != 0
  }

  lemma DeafIsSilent(w: World, ip: Ip, g: Datagram)
    requires Deaf(w, ip) && !IsLinkLocal(ip) && g.fromIp == ip
    ensures Delivered(w, Some(g)).None?
  {
    hide Parse, ValidMsg;
  }

  /** A new server that took a scope from a link-local local address makes its address deaf. */
  lemma DeafRegistration(w: World, ip: Ip, scope: U32, version: nat, source: Source, nonce: Nonce)
    requires version <= MAX_VERSION && !IsLinkLocal(ip) && ServerByIp(w.servers, ip, scope, 0).None?
    requires IsLinkLocal(source.ip) && source.scope != 0
    ensures Deaf(AddServer(w, ip, scope, version, Some(source), nonce), ip)
  {
    hide ServerByIp, Enrolled, AddServer, SlotFor;
    RegisteredAt(w, ip, scope, version, source, nonce);
    forall j | 0 <= j < |w.servers|
      ensures !Reaches(w.servers[j], ip, scope)
    {
    }
  }

  /** It stays deaf through every call that does not register the address again. */
  lemma DeafStep(w: World, a: Action, ip: Ip)
    requires AtRest(w) && Enabled(w, a) && Deaf(w, ip) && !(a.Register? && a.ip == ip)
    ensures Deaf(Step(w, a), ip)
  {
    hide TableOk, PingsOk, FlowOk, NewFlow, PulseRun, Delivered, ServerByIp, Enrolled, FlowMoves, Bucket;
    match a
    case Beat(g, t, d, tout) => PulseKeeps(w, Delivered(w, g), t, d, tout);
    case Open(kd, lifetime, ext, now) => OpenKeeps(w, 0, kd, lifetime, ext, now);
    case _ =>
  }

  lemma {:induction false} DeafAlong(ws: seq<World>, acts: seq<Action>, i: nat, j: nat, ip: Ip)
    requires IsRun(ws, acts) && i <= j < |ws| && Deaf(ws[i], ip)
    requires forall k :: i <= k < j ==> acts[k].Register? ==> acts[k].ip != ip
    ensures Deaf(ws[j], ip)
    decreases j
  {
    hide Deaf, Step, AtRest, Dangles, Enabled;
    if i < j {
      DeafAlong(ws, acts, i, j - 1, ip);
      RunKeeps(ws, acts, j - 1);
      DeafStep(ws[j - 1], acts[j - 1], ip);
    }
  }

  /** Over any run, no datagram from such a server is delivered until its address is registered again. */
  lemma DeafServers(ws: seq<World>, acts: seq<Action>, i: nat, j: nat, g: Datagram)
    requires IsRun(ws, acts) && i < j < |ws| && acts[i].Register? && acts[i].version <= MAX_VERSION
    requires !IsLinkLocal(acts[i].ip) && ServerByIp(ws[i].servers, acts[i].ip, acts[i].scope, 0).None?
    requires acts[i].source.Some? && IsLinkLocal(acts[i].source.value.ip) && acts[i].source.value.scope != 0
    requires forall k :: i < k < j ==> acts[k].Register? ==> acts[k].ip != acts[i].ip
    requires g.fromIp == acts[i].ip
    ensures Delivered(ws[j], Some(g)).None?
  {
    hide Deaf, AtRest, Dangles, AddServer, ServerByIp, Delivered;
    var a := acts[i];
    RunKeeps(ws, acts, i);
    DeafRegistration(ws[i], a.ip, a.scope, a.version, a.source.value, a.nonce);
    DeafAlong(ws, acts, i + 1, j, a.ip);
    DeafIsSilent(ws[j], a.ip, g);
  }
}
