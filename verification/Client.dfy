/** A whole client context: the calls an application makes, and what a datagram becomes. */
module Client {
  import opened Base
  import opened FlowKey
  import opened FlowMachine
  import opened ServerMachine
  import opened ServerRuns
  import opened Drive
  import opened Pulse
  import opened Parser
  import opened ServerArray

  // ------------------------------------------------------- received data

  /** A datagram, where it came from and where it arrived, and the second it was read. */
  datatype Datagram = Datagram(bytes: seq<Byte>, fromIp: Ip, fromScope: U32, toIp: Ip, toScope: U32, at: nat)

  /** get_pcp_server_by_ip: the lowest live server with that address. */
  function ServerByIp(servers: seq<Server>, ip: Ip, scope: U32, k: nat): (r: Option<nat>)
    requires k <= |servers|
    ensures r.Some? ==> k <= r.value < |servers| && Reaches(servers[r.value], ip, scope)
    ensures forall j :: k <= j < (if r.Some? then r.value else |servers|) ==> !Reaches(servers[j], ip, scope)
    decreases |servers| - k
  {
    if k == |servers| then None
    else if Reaches(servers[k], ip, scope) then Some(k)
    else ServerByIp(servers, ip, scope, k + 1)
  }

  /** The message as pcp_pulse completes it: server, own address and, before version 2, nonce. */
  function Completed(f: Fields, srv: Server, g: Datagram): (m: Msg) {
    var any := IsAny(g.toIp);
    var kd := f.kd.(serverIp := srv.ip,
                    srcIp := if any then srv.srcIp else g.toIp,
                    scope := if any then g.fromScope else g.toScope,
                    nonce := if f.version < 2 then srv.nonce else f.kd.nonce);
    Msg(kd, f.version, f.result, f.lifetime, f.epoch, g.at, f.ext)
  }

  /** The response that a datagram carries, if it is valid, parses and comes from a known server. */
  function Deliver(w: World, g: Datagram): (r: Option<Addressed>)
    ensures r.Some? ==> r.value.s < |w.servers| && r.value.m.version <= MAX_VERSION
  {
    if !ValidMsg(g.bytes) || Parse(g.bytes).None? then None
    else
      match ServerByIp(w.servers, g.fromIp, g.fromScope, 0)
      case None => None
      case Some(s) => Some(Addressed(s, Completed(Parse(g.bytes).value, w.servers[s], g)))
  }

  function Delivered(w: World, g: Option<Datagram>): (r: Option<Addressed>)
    ensures r.Some? ==> Deliverable(w, r.value)
  {
    if g.None? then None else Deliver(w, g.value)
  }

  // ------------------------------------------------------------- servers

  /** The local address found for a server. */
  datatype Source = Source(ip: Ip, scope: U32)

  /** pcp_new_server on the servers of a world: the new array, and the slot the new server takes. */
  function Enrolled(servers: seq<Server>, ip: Ip, scope: U32, nonce: Nonce): (r: (seq<Server>, nat))
    ensures r.1 < |r.0| && r.1 <= |servers| <= |r.0| && (r.1 < |servers| ==> servers[r.1].state == Uninit)
    ensures forall j :: 0 <= j < r.1 ==> servers[j].state != Uninit
    ensures forall j :: 0 <= j < |r.0| && j != r.1 ==> r.0[j] == if j < |servers| then servers[j] else BLANK.srv
    ensures r.0[r.1] == Registered(Slot(0, if r.1 < |servers| then servers[r.1] else BLANK.srv), r.1, ip, scope, nonce).srv
  {
    var c := seq(|servers|, i requires 0 <= i < |servers| => Slot(i, servers[i]));
    var i := FirstFree(c, 0);
    assert forall j :: 0 <= j < i ==> Live(c[j]) && servers[j] == c[j].srv;
    var slots := WithServer(c, i, ip, scope, nonce);
    (seq(|slots|, j requires 0 <= j < |slots| => slots[j].srv), i)
  }

  /** psd_fill_pcp_server_src: with a local address the server may be pinged, without it goes unused. */
  function Filled(srv: Server, version: nat, source: Option<Source>): (r: Server) {
    if source.None? then srv.(version := version, state := Uninit)
    else
      srv.(version := version, state := Ping, nextTimeout := 0, srcIp := source.value.ip,
           scope := if srv.scope == 0 && IsLinkLocal(source.value.ip) then source.value.scope else srv.scope)
  }

  /** pcp_add_server. */
  function AddServer(w: World, ip: Ip, scope: U32, version: nat, source: Option<Source>, nonce: Nonce): (r: World) {
    if version > MAX_VERSION then w
    else
      match ServerByIp(w.servers, ip, scope, 0)
      case Some(s) => PutServer(w, s, Filled(w.servers[s], version, source))
      case None =>
        var (servers, i) := Enrolled(w.servers, ip, scope, nonce);
        w.(servers := servers[i := Filled(servers[i], version, source)])
  }

  // --------------------------------------------------------------- flows

  /** The key that chain_and_assign_src_ip gives a flow on server srv. */
  function KeyOn(kd: Key, srv: Server): (k: Key) {
    var any := IsAny(kd.srcIp);
    kd.(srcIp := if any then srv.srcIp else kd.srcIp, scope := if any then srv.scope else kd.scope,
        serverIp := srv.ip, nonce := srv.nonce)
  }

  predicate Eligible(kd: Key, srv: Server) {
    && srv.state != Uninit && srv.state != NotWorking
    && (IsV4Mapped(KeyOn(kd, srv).srcIp) <==> IsV4Mapped(srv.srcIp))
    && KeyOn(kd, srv).scope == srv.scope
  }

  function FlowOn(w: World, s: nat, kd: Key, lifetime: U32, ext: Ext, now: int): (f: Flow)
    requires s < |w.servers|
  {
    var k := KeyOn(kd, w.servers[s]);
    Flow(w.nextId, k, Bucket(k), s, if w.servers[s].state == WaitIo then Send else WaitServerInit, now,
         0, 0, 0, 0, 0, ext, lifetime)
  }

  /** One server of pcp_new_flow. */
  function NewFlowOn(w: World, s: nat, kd: Key, lifetime: U32, ext: Ext, now: int): (r: World)
    requires TableOk(w) && s < |w.servers|
    ensures |r.servers| == |w.servers|
  {
    if !Eligible(kd, w.servers[s]) then w
    else PutServer(AddFlow(w, FlowOn(w, s, kd, lifetime, ext, now)), s, w.servers[s].(nextTimeout := now))
  }

  ghost function NewFlow(w: World, k: nat, kd: Key, lifetime: U32, ext: Ext, now: int): (r: World)
    requires AtRest(w) && k <= |w.servers|
    ensures |r.servers| == |w.servers|
    decreases |w.servers| - k
  {
    if k == |w.servers| then w
    else
      NewFlowOnKeeps(w, k, kd, lifetime, ext, now);
      NewFlow(NewFlowOn(w, k, kd, lifetime, ext, now), k + 1, kd, lifetime, ext, now)
  }

  /** Flows of w stay as they were; servers too, but for their deadlines. */
  ghost predicate OnlyAdds(w: World, r: World) {
    && |r.servers| == |w.servers| && r.maxPing == w.maxPing && r.nextId >= w.nextId
    && (forall i :: 0 <= i < |w.servers| ==> r.servers[i] == w.servers[i].(nextTimeout := r.servers[i].nextTimeout))
    && (forall i :: 0 <= i < |w.servers| && w.servers[i].state == Uninit ==> r.servers[i] == w.servers[i])
    && (forall id :: id in w.flows ==> id in r.flows && r.flows[id] == w.flows[id])
  }

  /** A new flow changes nothing but its server's deadline. */
  lemma NewFlowOnKeeps(w: World, s: nat, kd: Key, lifetime: U32, ext: Ext, now: int)
    requires AtRest(w) && s < |w.servers|
    ensures AtRest(NewFlowOn(w, s, kd, lifetime, ext, now))
    ensures OnlyAdds(w, NewFlowOn(w, s, kd, lifetime, ext, now))
    ensures forall i :: 0 <= i < |w.servers| && i != s ==> NewFlowOn(w, s, kd, lifetime, ext, now).servers[i] == w.servers[i]
  {
    hide TableOk, AddFlow, Bucket;
    if Eligible(kd, w.servers[s]) {
      var f := FlowOn(w, s, kd, lifetime, ext, now);
      var w1 := AddFlow(w, f);
      AddFlowKeeps(w, f, s);
      AddFlowFrame(w, f);
      OwnServerFits(w1, s);
      WriteKeeps(w1, s, w1.servers[s].(nextTimeout := now));
    }
  }

  /** pcp_flow_updated after a setter: the flow is due again, and so is its server. */
  function Updated(w: World, id: nat, lifetime: U32, now: int): (r: World)
    requires id in w.flows && w.flows[id].server < |w.servers|
  {
    var f := w.flows[id];
    var g := f.(lifetime := lifetime, timeout := now, state := if Parked(f.state) then f.state else Send);
    var srv := w.servers[f.server];
    w.(flows := w.flows[id := g],
       servers := if srv.state == Uninit then w.servers else w.servers[f.server := srv.(nextTimeout := now)])
  }

  /** pcp_close_flow_intern. */
  function Closed(w: World, id: nat, now: int): (r: World)
    requires id in w.flows && w.flows[id].server < |w.servers|
  {
    if Parked(w.flows[id].state) then w.(flows := w.flows[id := w.flows[id].(state := Failed)])
    else Updated(w, id, 0, now)
  }

  /** pcp_flow_set_nonce: the key changes, the bucket does not. */
  function NonceSet(w: World, id: nat, nonce: Nonce): (r: World)
    requires id in w.flows
  {
    w.(flows := w.flows[id := w.flows[id].(kd := w.flows[id].kd.(nonce := nonce))])
  }

  function IndexIn(order: seq<nat>, id: nat): (i: nat)
    requires id in order
    ensures i < |order| && order[i] == id
  {
    if order[0] == id then 0 else 1 + IndexIn(order[1..], id)
  }

  /** pcp_delete_flow_intern: out of the table, and out of a live server's ping pointer. */
  function Deleted(w: World, id: nat): (r: World)
    requires id in w.flows && id in w.order && w.flows[id].server < |w.servers|
  {
    var i := IndexIn(w.order, id);
    var s := w.flows[id].server;
    var srv := w.servers[s];
    w.(flows := w.flows - {id}, order := w.order[..i] + w.order[i + 1..],
       servers := if srv.state != Uninit && srv.ping == Some(id) then w.servers[s := srv.(ping := None)] else w.servers)
  }
}
