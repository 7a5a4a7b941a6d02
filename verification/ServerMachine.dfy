/**
 The per-server state machine and the sweeps it makes over the flows.
 A World holds every flow and server of one context: `order` is the order in
 which the flow table is iterated, `tick` counts the handler calls made so far.
 */
module ServerMachine {
  import opened Base
  import opened FlowKey
  import opened FlowMachine
  import opened Epoch

  const MAX_VERSION: nat := 2
  const RETRY_DELAY: int := 3600 * SECOND
  const UNSUPP_VERSION: nat := 1
  const ADDRESS_MISMATCH: nat := 12

  datatype ServerState =
    | Uninit | Allocated | Ping | WaitPingResp | VersionNeg | SendAll
    | WaitIo | CalcNearest | Restart | Reping | SetNotWorking | NotWorking

  /** The fields of pcp_server that the machines read or write; pointers to flows are flow ids. */
  datatype Server = Server(state: ServerState, nextTimeout: int, ping: Option<nat>, restart: Option<nat>,
                           pingCount: nat, version: nat, nextVersion: Byte, epoch: U32, cepoch: int,
                           ip: Ip, srcIp: Ip, scope: U32, nonce: Nonce, natpmpExt: V4)

  /** The fields of a server that its machine never writes. */
  predicate SameServer(a: Server, b: Server) {
    a.ip == b.ip && a.srcIp == b.srcIp && a.scope == b.scope && a.nonce == b.nonce
  }

  datatype ServerEvent = Timeout | IoEvent(msg: Msg) | Terminate

  /** `maxPing` is the build constant PCP_MAX_PING_COUNT. */
  datatype World = World(flows: map<nat, Flow>, order: seq<nat>, servers: seq<Server>,
                         nextId: nat, tick: nat, maxPing: nat)

  // ---------------------------------------------------------- one flow

  function CtxOf(w: World, f: Flow): (c: Ctx) {
    if f.server < |w.servers| && w.servers[f.server].state != Uninit
    then Ctx(true, w.servers[f.server].restart == Some(f.id))
    else Ctx(false, false)
  }

  function PutServer(w: World, s: nat, srv: Server): (r: World)
    requires s < |w.servers|
    ensures |r.servers| == |w.servers|
  {
    w.(servers := w.servers[s := srv])
  }

  /** handle_flow_event on the flow `id` of the table. */
  function HandleFlow(w: World, id: nat, ev: FlowEvent, m: Option<Msg>, env: Env): (r: World)
    requires id in w.flows && (ev.Res? ==> m.Some?)
    ensures |r.servers| == |w.servers|
  {
    var d := Drain(w.flows[id], ev, CtxOf(w, w.flows[id]), m, env, w.tick);
    w.(flows := w.flows[id := d.flow], tick := d.tick)
  }

  /** How check_flow_timeout folds one flow timer into the running minimum; 0 means none so far. */
  function FoldTimer(timeout: int, now: int, tout: int): int {
    if timeout == 0 then tout
    else
      var left := Max(0, timeout - now);
      if tout == 0 || left < tout then left else tout
  }

  /** check_flow_timeout: run an overdue timer, then fold what is left of it. */
  function CheckFlow(w: World, id: nat, now: int, env: Env, tout: int): (r: (World, int))
    requires id in w.flows
  {
    var f := w.flows[id];
    if f.timeout == 0 then (w, tout)
    else
      var w' := if f.timeout <= now then HandleFlow(w, id, TimedOut, None, env) else w;
      (w', FoldTimer(w'.flows[id].timeout, now, tout))
  }

  // ------------------------------------------------------------- sweeps

  /** What one pass over the flow table does at each flow. */
  datatype Job = CheckAll | Tell(s: nat, ev: FlowEvent)

  predicate Telling(job: Job) {
    job.Tell? ==> !job.ev.Res?
  }

  function Visit(job: Job, w: World, id: nat, now: int, env: Env, tout: int): (r: (World, int))
    requires id in w.flows && Telling(job)
  {
    match job
    case CheckAll => CheckFlow(w, id, now, env, tout)
    case Tell(s, ev) =>
      if w.flows[id].server == s then CheckFlow(HandleFlow(w, id, ev, None, env), id, now, env, tout)
      else (w, tout)
  }

  function Sweep(job: Job, w: World, ids: seq<nat>, now: int, env: Env, tout: int): (r: (World, int))
    requires Telling(job) && forall id :: id in ids ==> id in w.flows
    decreases |ids|
  {
    if ids == [] then (w, tout)
    else
      var (w', t) := Visit(job, w, ids[0], now, env, tout);
      Sweep(job, w', ids[1..], now, env, t)
  }

  // -------------------------------------------------- lookups by server

  /** A flow that handle_server_ping may use as its ping. */
  predicate Candidate(f: Flow, s: nat) {
    f.server == s && (f.state == Idle || f.state == WaitServerInit || f.state == Send)
  }

  function Candidates(w: World, s: nat): set<nat> {
    set id | id in w.flows && Candidate(w.flows[id], s)
  }

  function FirstCandidate(w: World, s: nat, ids: seq<nat>): (r: Option<nat>)
    requires forall id :: id in ids ==> id in w.flows
    ensures r.Some? ==> r.value in ids && Candidate(w.flows[r.value], s)
    ensures r.None? ==> forall id :: id in ids ==> !Candidate(w.flows[id], s)
  {
    if ids == [] then None
    else if Candidate(w.flows[ids[0]], s) then Some(ids[0])
    else FirstCandidate(w, s, ids[1..])
  }

  predicate KeyMatches(f: Flow, kd: Key, s: nat) {
    f.bucket == Bucket(kd) && f.server == s && f.kd == kd
  }

  /** pcp_get_flow: the first flow in the key's bucket with that key and server. */
  function Lookup(w: World, kd: Key, s: nat, ids: seq<nat>): (r: Option<nat>)
    requires forall id :: id in ids ==> id in w.flows
    ensures r.Some? ==> r.value in ids && KeyMatches(w.flows[r.value], kd, s)
    ensures r.None? ==> forall id :: id in ids ==> !KeyMatches(w.flows[id], kd, s)
  {
    if ids == [] then None
    else if KeyMatches(w.flows[ids[0]], kd, s) then Some(ids[0])
    else Lookup(w, kd, s, ids[1..])
  }

  /** f is iterated before g: in a lower bucket, or added before it to the same one. */
  predicate Precedes(f: Flow, g: Flow) {
    f.bucket < g.bucket || (f.bucket == g.bucket && f.id < g.id)
  }

  /** The list goes by bucket and, within a bucket, by age. */
  ghost predicate Sorted(flows: map<nat, Flow>, l: seq<nat>) {
    (forall k :: 0 <= k < |l| ==> l[k] in flows && flows[l[k]].id == l[k]) &&
    forall i, j :: 0 <= i < j < |l| ==> Precedes(flows[l[i]], flows[l[j]])
  }

  /** The order covers exactly the flows of the table, bucket by bucket, in each as they were added. */
  ghost predicate TableOk(w: World) {
    && (forall id :: id in w.order <==> id in w.flows)
    && (forall id :: id in w.flows ==> w.flows[id].id == id < w.nextId)
    && (forall i, j :: 0 <= i < j < |w.order| ==> Precedes(w.flows[w.order[i]], w.flows[w.order[j]]))
  }

  lemma NoTwice(w: World)
    requires TableOk(w)
    ensures forall i, j :: 0 <= i < j < |w.order| ==> w.order[i] != w.order[j]
    ensures forall id :: id in w.order <==> id in w.flows
  {
  }

  /** Where pcp_db_add_flow links a new flow of bucket b: after every flow of that or a lower bucket. */
  function InsertAt(w: World, b: nat, k: nat): (i: nat)
    requires TableOk(w) && k <= |w.order|
    ensures k <= i <= |w.order|
    ensures forall j :: k <= j < i ==> w.flows[w.order[j]].bucket <= b
    ensures forall j :: i <= j < |w.order| ==> w.flows[w.order[j]].bucket > b
    decreases |w.order| - k
  {
    if k < |w.order| && w.flows[w.order[k]].bucket <= b then InsertAt(w, b, k + 1) else k
  }

  /** pcp_db_add_flow for a newly created flow. */
  function AddFlow(w: World, f: Flow): (r: World)
    requires TableOk(w) && f.id == w.nextId
    ensures r.servers == w.servers && r.flows == w.flows[f.id := f]
  {
    var i := InsertAt(w, f.bucket, 0);
    w.(flows := w.flows[f.id := f], order := w.order[..i] + [f.id] + w.order[i..], nextId := w.nextId + 1)
  }

  lemma AddFlowTable(w: World, f: Flow)
    requires TableOk(w) && f.id == w.nextId
    ensures TableOk(AddFlow(w, f))
  {
    hide Precedes, InsertAt;
    var r, p := AddFlow(w, f), InsertAt(w, f.bucket, 0);
    InsertedMembers(w.order, p, f.id);
    forall i, j | 0 <= i < j < |r.order|
      ensures Precedes(r.flows[r.order[i]], r.flows[r.order[j]])
    {
      InsertedOrder(w, f, i, j);
    }
  }

  lemma InsertedMembers(l: seq<nat>, p: nat, x: nat)
    requires p <= |l|
    ensures forall id :: id in l[..p] + [x] + l[p..] <==> id in l || id == x
  {
    assert l == l[..p] + l[p..];
  }

  lemma InsertedOrder(w: World, f: Flow, i: nat, j: nat)
    requires TableOk(w) && f.id == w.nextId && i < j <= |w.order|
    ensures var r := AddFlow(w, f);
      |r.order| == |w.order| + 1 && r.order[i] in r.flows && r.order[j] in r.flows &&
      Precedes(r.flows[r.order[i]], r.flows[r.order[j]])
  {
    hide InsertAt, Precedes, TableOk;
    var p := InsertAt(w, f.bucket, 0);
    InsertedAt(w.order, p, f.id, i);
    InsertedAt(w.order, p, f.id, j);
    if i == p {
      BehindNew(w, f, j - 1);
    } else if j == p {
      BeforeNew(w, f, i);
    } else {
      OldPair(w, f, if i < p then i else i - 1, if j < p then j else j - 1);
    }
  }

  lemma InsertedAt(l: seq<nat>, p: nat, x: nat, k: nat)
    requires p <= |l| && k <= |l|
    ensures var r := l[..p] + [x] + l[p..];
      |r| == |l| + 1 && r[k] == if k < p then l[k] else if k == p then x else l[k - 1]
  {
  }

  lemma BeforeNew(w: World, f: Flow, i: nat)
    requires TableOk(w) && f.id == w.nextId && i < InsertAt(w, f.bucket, 0)
    ensures w.order[i] in w.flows && w.order[i] != f.id && Precedes(w.flows[w.order[i]], f)
  {
    hide InsertAt;
    assert w.order[i] in w.order;
  }

  lemma BehindNew(w: World, f: Flow, j: nat)
    requires TableOk(w) && f.id == w.nextId && InsertAt(w, f.bucket, 0) <= j < |w.order|
    ensures w.order[j] in w.flows && w.order[j] != f.id && Precedes(f, w.flows[w.order[j]])
  {
    hide InsertAt;
    assert w.order[j] in w.order;
  }

  lemma OldPair(w: World, f: Flow, i: nat, j: nat)
    requires TableOk(w) && f.id == w.nextId && i < j < |w.order|
    ensures w.order[i] in w.flows && w.order[j] in w.flows && w.order[i] != f.id && w.order[j] != f.id
    ensures Precedes(w.flows[w.order[i]], w.flows[w.order[j]])
  {
    hide Precedes;
    assert w.order[i] in w.order && w.order[j] in w.order;
  }

  /** The table is well formed as long as its order and the identity of its flows stay. */
  lemma TableKept(w: World, w': World)
    requires TableOk(w) && w'.order == w.order && w'.nextId == w.nextId && w'.flows.Keys == w.flows.Keys
    requires forall id :: id in w.flows ==> SameIdentity(w.flows[id], w'.flows[id])
    ensures TableOk(w')
  {
    forall i, j | 0 <= i < j < |w'.order|
      ensures Precedes(w'.flows[w'.order[i]], w'.flows[w'.order[j]])
    {
      assert Precedes(w.flows[w.order[i]], w.flows[w.order[j]]);
      assert w.order[i] in w.flows && w.order[j] in w.flows;
    }
  }

  // ------------------------------------------------ handlers: sending

  /** One round of the loop in handle_server_ping: flow id becomes the ping and is sent afresh. */
  function PingTried(w: World, s: nat, id: nat, env: Env): (r: World)
    requires s < |w.servers| && id in w.flows
    ensures r.order == w.order && r.flows.Keys == w.flows.Keys
    ensures forall j :: j in w.flows ==> SameIdentity(w.flows[j], r.flows[j])
    ensures forall j :: j in w.flows && j != id ==> r.flows[j] == w.flows[j]
    ensures |r.servers| == |w.servers| && r.nextId == w.nextId
  {
    var f := w.flows[id].(retry := 0, resends := 0);
    HandleFlow(PutServer(w, s, w.servers[s].(ping := Some(id))).(flows := w.flows[id := f]), id, SendNow, None, env)
  }

  /** The while loop of handle_server_ping: try candidates until one goes out. */
  function PingLoop(w: World, s: nat, env: Env): (r: World)
    requires TableOk(w) && s < |w.servers|
    ensures |r.servers| == |w.servers|
    decreases Candidates(w, s)
  {
    match FirstCandidate(w, s, w.order)
    case None => PutServer(w, s, w.servers[s].(ping := None, nextTimeout := 0, state := Ping))
    case Some(id) =>
      var w' := PingTried(w, s, id, env);
      var g := w'.flows[id];
      if g.state != Failed then
        PutServer(w', s, w'.servers[s].(nextTimeout := g.timeout, state := WaitPingResp))
      else
        assert id in Candidates(w, s) && id !in Candidates(w', s);
        assert Candidates(w', s) <= Candidates(w, s);
        TableKept(w, w');
        PingLoop(w', s, env)
  }

  /** Every ping_flow_msg names a flow of the table that belongs to its server. */
  ghost predicate PingsOk(w: World) {
    forall s :: 0 <= s < |w.servers| && w.servers[s].ping.Some? ==>
      w.servers[s].ping.value in w.flows && w.flows[w.servers[s].ping.value].server == s
  }

  ghost predicate Wired(w: World) {
    TableOk(w) && PingsOk(w)
  }

  function OnPing(w: World, s: nat, env: Env): (r: World)
    requires Wired(w) && s < |w.servers|
    ensures |r.servers| == |w.servers|
  {
    PingLoop(PutServer(w, s, w.servers[s].(pingCount := 0)), s, env)
  }

  function OnPingTimeout(w: World, s: nat, now: int, env: Env): (r: World)
    requires Wired(w) && s < |w.servers|
    ensures |r.servers| == |w.servers|
  {
    var srv := w.servers[s].(pingCount := w.servers[s].pingCount + 1);
    if srv.pingCount >= w.maxPing then PutServer(w, s, srv.(nextTimeout := now, state := SetNotWorking))
    else if srv.ping.None? then PutServer(w, s, srv.(nextTimeout := now, state := Ping))
    else
      var w' := HandleFlow(w, srv.ping.value, TimedOut, None, env);
      var g := w'.flows[srv.ping.value];
      if g.state == Failed then PutServer(w', s, srv.(nextTimeout := now, state := SetNotWorking))
      else PutServer(w', s, srv.(nextTimeout := g.timeout, state := WaitPingResp))
  }

  /** A fresh NAT-PMP announce flow for server s. */
  function AnnounceFlow(w: World, s: nat): (f: Flow)
    requires s < |w.servers|
  {
    var srv := w.servers[s];
    var kd := Key(OP_ANNOUNCE, srv.srcIp, srv.ip, 0, srv.nonce, 0, 0, Zeros(16), 0);
    Flow(w.nextId, kd, Bucket(kd), s, Idle, 0, 0, 0, 0, 0, 0, Ext(Zeros(16), 0), 0)
  }

  /** The tail of handle_version_negotiation: ping again with flow id, its counters cleared. */
  function PingAgain(w: World, s: nat, id: nat, env: Env): (r: World)
    requires s < |w.servers| && id in w.flows
    ensures |r.servers| == |w.servers|
  {
    var f := w.flows[id].(retry := 0, resends := 0, rt := 0);
    var w' := HandleFlow(w.(flows := w.flows[id := f]), id, SendNow, None, env);
    var g := w'.flows[id];
    if g.state == Failed then PutServer(w', s, w'.servers[s].(state := SetNotWorking))
    else PutServer(w', s, w'.servers[s].(nextTimeout := g.timeout, state := WaitPingResp))
  }

  /** create_natpmp_ann_msg: add an announce flow and make it the ping. */
  function AddAnnounce(w: World, s: nat): (r: World)
    requires TableOk(w) && s < |w.servers|
    ensures |r.servers| == |w.servers|
  {
    var f := AnnounceFlow(w, s);
    PutServer(AddFlow(w, f), s, w.servers[s].(ping := Some(f.id)))
  }

  /** Version 0: park the old ping flow and ping with an announce flow. */
  function PingWithAnnounce(w: World, s: nat, env: Env): (r: World)
    requires Wired(w) && s < |w.servers|
    ensures |r.servers| == |w.servers|
  {
    var srv := w.servers[s];
    var w1 := if srv.ping.None? then w
              else w.(flows := w.flows[srv.ping.value := w.flows[srv.ping.value].(state := WaitServerInit, timeout := 0)]);
    PingAgain(AddAnnounce(w1, s), s, w1.nextId, env)
  }

  /** Versions 1 and 2: ping with the flow at hand, or the first one that may be used. */
  function PingWithFlow(w: World, s: nat, env: Env): (r: World)
    requires Wired(w) && s < |w.servers|
    ensures |r.servers| == |w.servers|
  {
    var srv := w.servers[s];
    if srv.ping.Some? then PingAgain(w, s, srv.ping.value, env)
    else
      match FirstCandidate(w, s, w.order)
      case None => PutServer(w, s, srv.(nextTimeout := 0, state := Ping))
      case Some(id) => PingAgain(PutServer(w, s, srv.(ping := Some(id))), s, id, env)
  }

  /** next_version--, as an 8-bit value, when it is the version that was refused. */
  function NextVersion(srv: Server): (v: Byte) {
    if srv.nextVersion == srv.version then (srv.nextVersion + 255) % 256 else srv.nextVersion
  }

  function OnVersionNegotiation(w: World, s: nat, env: Env): (r: World)
    requires Wired(w) && s < |w.servers|
    ensures |r.servers| == |w.servers|
  {
    var srv := w.servers[s];
    var next := NextVersion(srv);
    if srv.version == 0 then PutServer(w, s, srv.(nextVersion := next, state := SetNotWorking))
    else
      var w' := PutServer(w, s, srv.(nextVersion := next, version := next));
      if next == 0 then PingWithAnnounce(w', s, env) else PingWithFlow(w', s, env)
  }

  // ----------------------------------------------- handlers: broadcasts

  function OnSendAll(w: World, s: nat, now: int, env: Env): (r: World)
    requires Wired(w) && s < |w.servers|
    ensures |r.servers| == |w.servers|
  {
    var w' := Sweep(Tell(s, ServerInitialized), w, w.order, now, env, w.servers[s].nextTimeout).0;
    w'.(servers := w.servers[s := w.servers[s].(nextTimeout := now, state := CalcNearest)])
  }

  function OnRestart(w: World, s: nat, now: int, env: Env): (r: World)
    requires Wired(w) && s < |w.servers|
    ensures |r.servers| == |w.servers|
  {
    var w' := Sweep(Tell(s, ServerRestarted), w, w.order, now, env, w.servers[s].nextTimeout).0;
    w'.(servers := w.servers[s := w.servers[s].(restart := None, nextTimeout := now, state := CalcNearest)])
  }

  function OnSetNotWorking(w: World, s: nat, now: int, env: Env): (r: World)
    requires Wired(w) && s < |w.servers|
    ensures |r.servers| == |w.servers|
  {
    var w' := Sweep(Tell(s, Fail), w, w.order, now, env, w.servers[s].nextTimeout).0;
    w'.(servers := w.servers[s := w.servers[s].(nextTimeout := now + RETRY_DELAY, state := NotWorking)])
  }

  /** handle_wait_io_timeout: run the due timers of every flow and take the nearest one left. */
  function OnTimers(w: World, s: nat, now: int, env: Env): (r: World)
    requires Wired(w) && s < |w.servers|
    ensures |r.servers| == |w.servers|
  {
    var (w', t) := Sweep(CheckAll, w, w.order, now, env, 0);
    w'.(servers := w.servers[s := w.servers[s].(nextTimeout := if t == 0 then 0 else now + t, state := WaitIo)])
  }

  // --------------------------------------------- handlers: responses

  /** The flow that a response to server s is meant for. */
  function Target(w: World, s: nat, m: Msg): (r: Option<nat>)
    requires Wired(w) && s < |w.servers|
    ensures r.Some? ==> r.value in w.flows && w.flows[r.value].server == s
  {
    var srv := w.servers[s];
    if m.version == 0 && m.kd.op == OP_ANNOUNCE then
      if srv.version == 0 && srv.ping.Some? && w.flows[srv.ping.value].kd.op == OP_ANNOUNCE then srv.ping else None
    else Lookup(w, m.kd, s, w.order)
  }

  /** The response as the flow sees it: NAT-PMP maps carry no address, the server's last announce supplies it. */
  function Resolved(srv: Server, m: Msg): (r: Msg) {
    if m.version == 0 && m.kd.op != OP_ANNOUNCE
    then m.(ext := m.ext.(ip := V4Mapped(srv.natpmpExt))) else m
  }

  /** server_process_rcvd_pcp_msg. */
  function Process(w: World, s: nat, m: Msg, env: Env): (r: World)
    requires Wired(w) && s < |w.servers|
    ensures |r.servers| == |w.servers|
  {
    var srv := w.servers[s];
    var w1 := if m.version == 0 && m.kd.op == OP_ANNOUNCE
              then PutServer(w, s, srv.(natpmpExt := m.ext.ip[12..])) else w;
    match Target(w, s, m)
    case None => w1
    case Some(id) => HandleFlow(w1, id, Res(m.result), Some(Resolved(srv, m)), env)
  }

  /** compare_epochs: adopt a first epoch as baseline, then test. */
  function Baseline(srv: Server, m: Msg): (r: Server) {
    if srv.epoch == NO_EPOCH then srv.(epoch := m.epoch, cepoch := m.receivedTime) else srv
  }

  predicate EpochRestart(srv: Server, m: Msg) {
    var b := Baseline(srv, m);
    RestartSeen(Wrap32(m.receivedTime - b.cepoch), Wrap32(m.epoch - b.epoch))
  }

  function OnReceive(w: World, s: nat, m: Msg, now: int, env: Env): (r: World)
    requires Wired(w) && s < |w.servers|
    ensures |r.servers| == |w.servers|
  {
    var srv := w.servers[s];
    if m.result == UNSUPP_VERSION then
      PutServer(w, s, srv.(nextTimeout := now, nextVersion := m.version % 256, state := VersionNeg))
    else if m.result == ADDRESS_MISMATCH then
      PutServer(w, s, srv.(nextTimeout := now, state := SetNotWorking))
    else
      var w' := Process(w, s, m, env);
      var srv' := w'.servers[s];
      if EpochRestart(srv', m) then
        PutServer(w', s, srv'.(epoch := m.epoch, cepoch := m.receivedTime, nextTimeout := now,
                               restart := Target(w, s, m), state := Restart))
      else PutServer(w', s, Baseline(srv', m).(nextTimeout := now, state := CalcNearest))
  }

  function OnPingReceive(w: World, s: nat, m: Msg, now: int, env: Env): (r: World)
    requires Wired(w) && s < |w.servers|
    ensures |r.servers| == |w.servers|
  {
    var w' := OnReceive(w, s, m, now, env);
    if w'.servers[s].state == CalcNearest then PutServer(w', s, w'.servers[s].(state := SendAll)) else w'
  }

  /** The deadline test of the drive loop; 0 means no deadline. */
  predicate Due(srv: Server, now: int) {
    srv.nextTimeout != 0 && srv.nextTimeout <= now
  }

  function OnNotWorking(w: World, s: nat, ev: ServerEvent, now: int, env: Env): (r: World)
    requires Wired(w) && s < |w.servers|
    requires ev.IoEvent? || Due(w.servers[s], now)
    ensures |r.servers| == |w.servers|
  {
    var srv := w.servers[s];
    if now >= srv.nextTimeout then PutServer(w, s, srv.(nextTimeout := now, state := Reping))
    else if ev.msg.result == UNSUPP_VERSION || ev.msg.result == ADDRESS_MISMATCH then w
    else
      var w' := Process(w, s, ev.msg, env);
      PutServer(w', s, w'.servers[s].(epoch := ev.msg.epoch, cepoch := ev.msg.receivedTime, nextTimeout := now,
                                      restart := Target(w, s, ev.msg), state := Restart))
  }

  // --------------------------------------------------------- dispatch

  /** run_server_state_machine; timeouts are only delivered when due. */
  function Run(w: World, s: nat, ev: ServerEvent, now: int, env: Env): (r: World)
    requires Wired(w) && s < |w.servers|
    requires ev == Timeout ==> Due(w.servers[s], now)
    ensures |r.servers| == |w.servers|
  {
    var srv := w.servers[s];
    if ev == Terminate then PutServer(w, s, srv.(nextTimeout := 0, state := Allocated))
    else
      match srv.state
      case Ping => OnPing(w, s, env)
      case WaitPingResp => if ev.IoEvent? then OnPingReceive(w, s, ev.msg, now, env) else OnPingTimeout(w, s, now, env)
      case VersionNeg => OnVersionNegotiation(w, s, env)
      case SendAll => OnSendAll(w, s, now, env)
      case WaitIo => if ev.IoEvent? then OnReceive(w, s, ev.msg, now, env) else OnTimers(w, s, now, env)
      case CalcNearest => OnTimers(w, s, now, env)
      case Restart => OnRestart(w, s, now, env)
      case Reping => PutServer(w, s, srv.(version := MAX_VERSION, nextTimeout := now, state := Ping))
      case SetNotWorking => OnSetNotWorking(w, s, now, env)
      case NotWorking => OnNotWorking(w, s, ev, now, env)
      case Allocated => PutServer(w, s, srv.(nextTimeout := 0))
      case Uninit => PutServer(w, s, srv.(nextTimeout := now, state := SetNotWorking))
  }
}
