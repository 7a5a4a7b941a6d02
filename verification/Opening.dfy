/** pcp_new_flow: which servers a new flow is opened on, and as what. */
module Opening {
  import opened Base
  import opened FlowKey
  import opened FlowMachine
  import opened FlowRuns
  import opened ServerMachine
  import opened ServerRuns
  import opened Drive
  import opened Client
  import opened ClientRuns

  /** The server takes a flow for this local address: any address, or one of its family and scope. */
  predicate Serves(kd: Key, srv: Server) {
    srv.state != Uninit && srv.state != NotWorking &&
    (IsAny(kd.srcIp) || ((IsV4Mapped(kd.srcIp) <==> IsV4Mapped(srv.srcIp)) && kd.scope == srv.scope))
  }

  /** The flow that server s gets: the caller's ends, the server's address and nonce, and a local address. */
  predicate OpenedAs(f: Flow, s: nat, srv: Server, kd: Key, lifetime: U32, ext: Ext, now: int) {
    && f.server == s && f.lifetime == lifetime && f.ext == ext && f.timeout == now
    && f.state == (if srv.state == WaitIo then Send else WaitServerInit)
    && f.retry == 0 && f.resends == 0 && f.result == 0 && f.recvEnd == 0
    && f.kd.op == kd.op && f.kd.proto == kd.proto && f.kd.srcPort == kd.srcPort
    && f.kd.dstIp == kd.dstIp && f.kd.dstPort == kd.dstPort
    && f.kd.serverIp == srv.ip && f.kd.nonce == srv.nonce
    && f.kd.srcIp == (if IsAny(kd.srcIp) then srv.srcIp else kd.srcIp)
    && f.kd.scope == (if IsAny(kd.srcIp) then srv.scope else kd.scope)
  }

  /** One server: it gets exactly one flow and is due at once, or stays as it was. */
  lemma OpensOn(w: World, s: nat, kd: Key, lifetime: U32, ext: Ext, now: int)
    requires AtRest(w) && s < |w.servers|
    ensures var r := NewFlowOn(w, s, kd, lifetime, ext, now);
      if Serves(kd, w.servers[s]) then
        w.nextId !in w.flows && r.flows.Keys == w.flows.Keys + {w.nextId} &&
        OpenedAs(r.flows[w.nextId], s, w.servers[s], kd, lifetime, ext, now) &&
        r.servers == w.servers[s := w.servers[s].(nextTimeout := now)]
      else r == w
  {
    hide Bucket, Precedes, PingsOk, FlowOk;
  }

  /** id is a flow that the call added. */
  predicate Added(w: World, r: World, id: nat) {
    id in r.flows && id !in w.flows
  }

  /** Every server from k on that serves got a flow. */
  ghost predicate Covers(w: World, r: World, k: nat, kd: Key) {
    forall s :: k <= s < |w.servers| && Serves(kd, w.servers[s]) ==> exists id :: Added(w, r, id) && r.flows[id].server == s
  }

  /** The call has opened flows on servers from k on: one on each that serves, none on the others. */
  ghost predicate OpensFrom(w: World, r: World, k: nat, kd: Key, lifetime: U32, ext: Ext, now: int) {
    && |r.servers| == |w.servers|
    && (forall id :: Added(w, r, id) ==>
          var s := r.flows[id].server;
          k <= s < |w.servers| && Serves(kd, w.servers[s]) && OpenedAs(r.flows[id], s, w.servers[s], kd, lifetime, ext, now))
    && Covers(w, r, k, kd)
    && (forall i, j :: Added(w, r, i) && Added(w, r, j) && r.flows[i].server == r.flows[j].server ==> i == j)
    && (forall s :: 0 <= s < |w.servers| ==>
          r.servers[s] == if k <= s && Serves(kd, w.servers[s]) then w.servers[s].(nextTimeout := now) else w.servers[s])
  }

  lemma {:induction false} OpensServers(w: World, k: nat, kd: Key, lifetime: U32, ext: Ext, now: int)
    requires AtRest(w) && k <= |w.servers|
    ensures OpensFrom(w, NewFlow(w, k, kd, lifetime, ext, now), k, kd, lifetime, ext, now)
    decreases |w.servers| - k
  {
    hide TableOk, PingsOk, FlowOk, NewFlowOn, Serves, OpenedAs, OpensFrom, OnlyAdds, Settled;
    if k < |w.servers| {
      var w1 := NewFlowOn(w, k, kd, lifetime, ext, now);
      NewFlowOnKeeps(w, k, kd, lifetime, ext, now);
      OpensOn(w, k, kd, lifetime, ext, now);
      OpenKeeps(w1, k + 1, kd, lifetime, ext, now);
      OpensServers(w1, k + 1, kd, lifetime, ext, now);
      OpensStep(w, w1, NewFlow(w1, k + 1, kd, lifetime, ext, now), k, kd, lifetime, ext, now);
    } else {
      OpensNone(w, kd, lifetime, ext, now);
    }
  }

  lemma OpensNone(w: World, kd: Key, lifetime: U32, ext: Ext, now: int)
    ensures OpensFrom(w, w, |w.servers|, kd, lifetime, ext, now)
  {
  }

  /** Server k in front of those from k + 1 on. */
  lemma OpensStep(w: World, w1: World, r: World, k: nat, kd: Key, lifetime: U32, ext: Ext, now: int)
    requires k < |w.servers| && OnlyAdds(w1, r) && OpensFrom(w1, r, k + 1, kd, lifetime, ext, now)
    requires if Serves(kd, w.servers[k]) then
        w.nextId !in w.flows && w1.flows.Keys == w.flows.Keys + {w.nextId} &&
        OpenedAs(w1.flows[w.nextId], k, w.servers[k], kd, lifetime, ext, now) &&
        w1.servers == w.servers[k := w.servers[k].(nextTimeout := now)]
      else w1 == w
    ensures OpensFrom(w, r, k, kd, lifetime, ext, now)
  {
    hide Serves, Covers;
    if Serves(kd, w.servers[k]) {
      CoversStep(w, w1, r, k, kd, w.nextId);
      forall id | Added(w, r, id) && id != w.nextId
        ensures Added(w1, r, id)
      {
      }
    } else {
      CoversSkip(w, r, k, kd);
    }
  }

  lemma CoversStep(w: World, w1: World, r: World, k: nat, kd: Key, id: nat)
    requires k < |w.servers| == |w1.servers| && Covers(w1, r, k + 1, kd)
    requires forall s :: k < s < |w.servers| ==> w1.servers[s] == w.servers[s]
    requires forall j :: j in w.flows ==> j in w1.flows
    requires Added(w, r, id) && r.flows[id].server == k
    ensures Covers(w, r, k, kd)
  {
    hide Serves;
    forall s | k < s < |w.servers| && Serves(kd, w.servers[s])
      ensures exists i :: Added(w, r, i) && r.flows[i].server == s
    {
      assert w1.servers[s] == w.servers[s];
      var i :| Added(w1, r, i) && r.flows[i].server == s;
      assert Added(w, r, i);
    }
  }

  lemma CoversSkip(w: World, r: World, k: nat, kd: Key)
    requires k < |w.servers| && !Serves(kd, w.servers[k]) && Covers(w, r, k + 1, kd)
    ensures Covers(w, r, k, kd)
  {
    hide Serves;
  }

  /**
   pcp_new_flow opens exactly one flow on every server in use that serves the local address, with
   the caller's ends, lifetime and mapping and the server's address and nonce, to be sent at once if
   the server is in service, and leaves every other server and flow as it was.
   */
  lemma OpensFlows(w: World, kd: Key, lifetime: U32, ext: Ext, now: int)
    requires AtRest(w)
    ensures var r := NewFlow(w, 0, kd, lifetime, ext, now);
      OpensFrom(w, r, 0, kd, lifetime, ext, now) && forall id :: id in w.flows ==> id in r.flows && r.flows[id] == w.flows[id]
  {
    hide AtRest, NewFlow, OpensFrom;
    OpensServers(w, 0, kd, lifetime, ext, now);
    OpenKeeps(w, 0, kd, lifetime, ext, now);
  }
}
