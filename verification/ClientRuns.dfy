/** Every run of a client: any sequence of application calls and pulses. */
module ClientRuns {
  import opened Base
  import opened FlowKey
  import opened FlowMachine
  import opened FlowRuns
  import opened ServerMachine
  import opened ServerRuns
  import opened Drive
  import opened Recovery
  import opened Pulse
  import opened Client

  datatype Action =
    | Register(ip: Ip, scope: U32, version: nat, source: Option<Source>, nonce: Nonce)
    | Open(kd: Key, lifetime: U32, ext: Ext, now: int)
    | Update(id: nat, lifetime: U32, now: int)
    | SetNonce(id: nat, nonce: Nonce)
    | Close(id: nat, now: int)
    | Delete(id: nat)
    | Beat(g: Option<Datagram>, t: Tempo, d: nat -> Tempo, tout: int)

  /** The keys that pcp_new_flow makes: a MAP has no remote end. */
  predicate KeyShape(kd: Key) {
    kd.op == OP_PEER || (kd.op == OP_MAP && kd.dstIp == Zeros(16) && kd.dstPort == 0)
  }

  /** What a caller must respect: flows it names exist, and the clock is running. */
  ghost predicate Enabled(w: World, a: Action) {
    match a
    case Open(kd, _, _, _) => KeyShape(kd)
    case Update(id, _, _) => id in w.flows
    case SetNonce(id, _) => id in w.flows
    case Close(id, _) => id in w.flows
    case Delete(id) => id in w.flows
    case Beat(_, t, d, _) => Still(t.env, t.now) && Steady(d)
    case _ => true
  }

  ghost function Step(w: World, a: Action): (r: World)
    requires AtRest(w) && Enabled(w, a)
  {
    match a
    case Register(ip, scope, version, source, nonce) => AddServer(w, ip, scope, version, source, nonce)
    case Open(kd, lifetime, ext, now) => NewFlow(w, 0, kd, lifetime, ext, now)
    case Update(id, lifetime, now) => Updated(w, id, lifetime, now)
    case SetNonce(id, nonce) => NonceSet(w, id, nonce)
    case Close(id, now) => Closed(w, id, now)
    case Delete(id) => Deleted(w, id)
    case Beat(g, t, d, tout) => PulseRun(w, Delivered(w, g), t, d, tout).0
  }

  // ------------------------------------------------------- registration

  /** Writing the server array keeps the client at rest if no ping pointer moves. */
  lemma ServersKeep(w: World, servers: seq<Server>)
    requires AtRest(w) && |w.servers| <= |servers|
    requires forall i :: 0 <= i < |servers| ==> Settled(servers[i]) && servers[i].version <= MAX_VERSION
    requires forall i :: 0 <= i < |servers| ==> servers[i].ping == if i < |w.servers| then w.servers[i].ping else None
    ensures AtRest(w.(servers := servers))
  {
    hide FlowOk, Precedes;
  }

  /** Registration keeps the client at rest, and every flow as it was; of an unknown version it changes nothing. */
  lemma RegisterKeeps(w: World, a: Action)
    requires AtRest(w) && a.Register?
    ensures AtRest(Step(w, a)) && Step(w, a).flows == w.flows && (a.version > 2 ==> Step(w, a) == w)
  {
    hide TableOk, FlowOk, Enrolled, PingsOk, ServerByIp;
    if a.version <= MAX_VERSION {
      ServersKeep(w, Step(w, a).servers);
    }
  }

  // -------------------------------------------------------------- flows

  /** Rewriting a flow without touching its place in the table. */
  lemma RewriteKeeps(w: World, g: Flow)
    requires WorldOk(w) && g.id in w.flows && FlowOk(g)
    requires g.bucket == w.flows[g.id].bucket && g.server == w.flows[g.id].server
    ensures WorldOk(w.(flows := w.flows[g.id := g]))
  {
    hide FlowOk;
    var w' := w.(flows := w.flows[g.id := g]);
    forall i, j | 0 <= i < j < |w.order|
      ensures Precedes(w'.flows[w.order[i]], w'.flows[w.order[j]])
    {
      assert Precedes(w.flows[w.order[i]], w.flows[w.order[j]]);
      assert w.order[i] in w.flows && w.order[j] in w.flows;
    }
  }

  lemma ServerDueKeeps(w: World, s: nat, now: int)
    requires AtRest(w) && s < |w.servers|
    ensures AtRest(PutServer(w, s, w.servers[s].(nextTimeout := now)))
  {
    hide TableOk, PingsOk, FlowOk;
    OwnServerFits(w, s);
    WriteKeeps(w, s, w.servers[s].(nextTimeout := now));
  }

  /** A changed flow is due again, and so is its server; nothing else changes. */
  lemma UpdateKeeps(w: World, id: nat, lifetime: U32, now: int)
    requires AtRest(w) && id in w.flows
    ensures var r := Updated(w, id, lifetime, now); var f, s := w.flows[id], w.flows[id].server;
      AtRest(r) && r.flows.Keys == w.flows.Keys && (forall j :: j in w.flows && j != id ==> r.flows[j] == w.flows[j]) &&
      r.flows[id] == f.(lifetime := lifetime, timeout := now, state := r.flows[id].state) &&
      r.flows[id].state == (if f.state in {WaitServerInit, Idle, Failed} then f.state else Send) &&
      r.servers == if w.servers[s].state == Uninit then w.servers else w.servers[s := w.servers[s].(nextTimeout := now)]
  {
    hide TableOk, PingsOk;
    var f := w.flows[id];
    var g := f.(lifetime := lifetime, timeout := now, state := if Parked(f.state) then f.state else Send);
    RewriteKeeps(w, g);
    ServerDueKeeps(w.(flows := w.flows[id := g]), f.server, now);
  }

  /**
   A parked flow that is closed fails on the spot; any other is due at once, with lifetime 0,
   and its server with it. Nothing else changes.
   */
  lemma CloseKeeps(w: World, id: nat, now: int)
    requires AtRest(w) && id in w.flows
    ensures var r := Closed(w, id, now); var f, s := w.flows[id], w.flows[id].server;
      AtRest(r) && r.flows.Keys == w.flows.Keys && (forall j :: j in w.flows && j != id ==> r.flows[j] == w.flows[j]) &&
      if f.state in {WaitServerInit, Idle, Failed} then r.flows[id] == f.(state := Failed) && r.servers == w.servers
      else
        r.flows[id] == f.(lifetime := 0, timeout := now, state := Send) &&
        r.servers == if w.servers[s].state == Uninit then w.servers else w.servers[s := w.servers[s].(nextTimeout := now)]
  {
    hide TableOk;
    if Parked(w.flows[id].state) {
      RewriteKeeps(w, w.flows[id].(state := Failed));
    } else {
      UpdateKeeps(w, id, 0, now);
    }
  }

  /** A new nonce changes the flow's key and nothing else. */
  lemma NonceKeeps(w: World, id: nat, nonce: Nonce)
    requires AtRest(w) && id in w.flows
    ensures var r := NonceSet(w, id, nonce);
      AtRest(r) && r.servers == w.servers && r.flows.Keys == w.flows.Keys &&
      (forall j :: j in w.flows && j != id ==> r.flows[j] == w.flows[j]) &&
      r.flows[id] == w.flows[id].(kd := w.flows[id].kd.(nonce := nonce))
  {
    hide TableOk;
    RewriteKeeps(w, w.flows[id].(kd := w.flows[id].kd.(nonce := nonce)));
  }

  /** Taking position p out of a sorted list. */
  lemma CutSorted(flows: map<nat, Flow>, l: seq<nat>, p: nat)
    requires p < |l| && Sorted(flows, l)
    ensures forall x :: x in l[..p] + l[p + 1..] <==> x in l && x != l[p]
    ensures Sorted(flows - {l[p]}, l[..p] + l[p + 1..])
  {
    hide Precedes;
    var cut := l[..p] + l[p + 1..];
    SortedOnce(flows, l);
    assert l == l[..p] + [l[p]] + l[p + 1..];
    assert forall k :: 0 <= k < |cut| ==> cut[k] == if k < p then l[k] else l[k + 1];
  }

  lemma SortedOnce(flows: map<nat, Flow>, l: seq<nat>)
    requires Sorted(flows, l)
    ensures forall i, j :: 0 <= i < j < |l| ==> l[i] != l[j]
  {
  }

  /** Taking one id out of the order keeps the table well formed. */
  lemma DeletedTable(w: World, id: nat)
    requires TableOk(w) && id in w.flows && w.flows[id].server < |w.servers|
    ensures TableOk(Deleted(w, id))
  {
    hide Precedes, IndexIn;
    CutSorted(w.flows, w.order, IndexIn(w.order, id));
  }

  /** A delete takes out that flow and clears the pointers to it of servers in use; nothing else changes. */
  lemma DeletesOnly(w: World, id: nat)
    requires Wired(w) && id in w.flows && w.flows[id].server < |w.servers|
    ensures var r := Deleted(w, id);
      r.flows.Keys == w.flows.Keys - {id} && (forall j :: j in r.flows ==> r.flows[j] == w.flows[j]) &&
      |r.servers| == |w.servers| &&
      forall i :: 0 <= i < |w.servers| ==>
        var srv := w.servers[i];
        r.servers[i] == srv.(ping := if srv.state != Uninit && srv.ping == Some(id) then None else srv.ping)
  {
    hide TableOk, IndexIn;
  }

  /** Deleting a flow leaves no ping pointer dangling exactly when its server's slot is in use or does not point at it. */
  lemma DeleteKeepsPings(w: World, id: nat)
    requires AtRest(w) && id in w.flows
    ensures AtRest(Deleted(w, id)) <==> PingsOk(Deleted(w, id))
    ensures var srv := w.servers[w.flows[id].server];
      PingsOk(Deleted(w, id)) <==> !(srv.state == Uninit && srv.ping == Some(id))
  {
    hide FlowOk, Precedes;
    DeletedTable(w, id);
    var r, s := Deleted(w, id), w.flows[id].server;
    assert r.flows.Keys == w.flows.Keys - {id};
    if w.servers[s].state == Uninit && w.servers[s].ping == Some(id) {
      assert r.servers[s].ping.Some? && r.servers[s].ping.value !in r.flows;
    } else {
      forall i | 0 <= i < |r.servers| && r.servers[i].ping.Some?
        ensures r.servers[i].ping.value in r.flows && r.flows[r.servers[i].ping.value].server == i
      {
        assert w.servers[i].ping == r.servers[i].ping;
      }
    }
  }

  /** pcp_new_flow keeps every existing flow as it was, and every server but for its deadline. */
  lemma {:induction false} OpenKeeps(w: World, k: nat, kd: Key, lifetime: U32, ext: Ext, now: int)
    requires AtRest(w) && k <= |w.servers|
    ensures AtRest(NewFlow(w, k, kd, lifetime, ext, now))
    ensures OnlyAdds(w, NewFlow(w, k, kd, lifetime, ext, now))
    decreases |w.servers| - k
  {
    hide TableOk, PingsOk, FlowOk, Bucket, NewFlowOn, Settled;
    if k < |w.servers| {
      NewFlowOnKeeps(w, k, kd, lifetime, ext, now);
      OpenKeeps(NewFlowOn(w, k, kd, lifetime, ext, now), k + 1, kd, lifetime, ext, now);
    }
  }

  // ---------------------------------------------------------- every run

  /** A delete that leaves a ping pointer dangling: the flow is the ping of a server that was lost. */
  ghost predicate Dangles(w: World, a: Action) {
    a.Delete? && a.id in w.flows && w.flows[a.id].server < |w.servers| &&
    var srv := w.servers[w.flows[a.id].server];
    srv.state == Uninit && srv.ping == Some(a.id)
  }

  /** Every call keeps the client at rest exactly if it is not such a delete. */
  lemma StepKeeps(w: World, a: Action)
    requires AtRest(w) && Enabled(w, a)
    ensures AtRest(Step(w, a)) <==> !Dangles(w, a)
  {
    hide TableOk, FlowOk, PingsOk, AddServer, NewFlow, Updated, Closed, NonceSet, Deleted, PulseRun;
    match a
    case Register(_, _, _, _, _) => RegisterKeeps(w, a);
    case Open(kd, lifetime, ext, now) => OpenKeeps(w, 0, kd, lifetime, ext, now);
    case Update(id, lifetime, now) => UpdateKeeps(w, id, lifetime, now);
    case SetNonce(id, nonce) => NonceKeeps(w, id, nonce);
    case Close(id, now) => CloseKeeps(w, id, now);
    case Delete(id) => DeleteKeepsPings(w, id);
    case Beat(g, t, d, tout) => PulseKeeps(w, Delivered(w, g), t, d, tout);
  }

  /** What one call does to a client at rest. */
  ghost predicate Follows(w: World, a: Action, w': World) {
    AtRest(w) ==> Enabled(w, a) && !Dangles(w, a) && w' == Step(w, a)
  }

  /** ws are the worlds of a run and acts the calls between them. */
  ghost predicate IsRun(ws: seq<World>, acts: seq<Action>) {
    |ws| == |acts| + 1 && AtRest(ws[0]) && forall i :: 0 <= i < |acts| ==> Follows(ws[i], acts[i], ws[i + 1])
  }

  /** A context as pcp_init leaves it. */
  function Initial(maxPing: nat): World {
    World(map[], [], [], 0, 0, maxPing)
  }

  lemma InitialOk(maxPing: nat)
    ensures AtRest(Initial(maxPing))
  {
  }

  /** Every world of a run is at rest. */
  lemma {:induction false} RunKeeps(ws: seq<World>, acts: seq<Action>, i: nat)
    requires IsRun(ws, acts) && i < |ws|
    ensures AtRest(ws[i])
    ensures i < |acts| ==> Enabled(ws[i], acts[i]) && !Dangles(ws[i], acts[i]) && ws[i + 1] == Step(ws[i], acts[i])
  {
    hide AtRest, Step, Dangles;
    if i > 0 {
      RunKeeps(ws, acts, i - 1);
      assert Follows(ws[i - 1], acts[i - 1], ws[i]);
      StepKeeps(ws[i - 1], acts[i - 1]);
    }
    assert i < |acts| ==> Follows(ws[i], acts[i], ws[i + 1]);
  }

  /** Every call a caller may make extends a run. */
  lemma RunExtends(ws: seq<World>, acts: seq<Action>, a: Action)
    requires IsRun(ws, acts) && Enabled(ws[|acts|], a) && !Dangles(ws[|acts|], a)
    ensures AtRest(ws[|acts|]) && IsRun(ws + [Step(ws[|acts|], a)], acts + [a])
  {
    hide AtRest, Step, Dangles;
    RunKeeps(ws, acts, |acts|);
  }

  /**
   In every reachable world: each flow that waits for a response has a timer and a delay within
   the backoff ceiling, and was resent at most twice since its count was reset; each server
   speaks a supported version, rests in a resting state with no restart pending, and a ping
   pointer names a flow of the table that belongs to its server.
   */
  lemma ReachableSafety(ws: seq<World>, acts: seq<Action>, maxPing: nat, i: nat)
    requires IsRun(ws, acts) && ws[0] == Initial(maxPing) && i < |ws|
    ensures forall id :: id in ws[i].flows ==>
      var f := ws[i].flows[id];
      f.resends <= 2 && (f.state == WaitResp ==> f.timeout != 0 && f.rt <= RtBound(f.retry))
    ensures forall s :: 0 <= s < |ws[i].servers| ==>
      var srv := ws[i].servers[s];
      srv.version <= 2 && srv.restart.None? &&
      srv.state in {Uninit, Allocated, Ping, WaitPingResp, WaitIo, NotWorking} &&
      (srv.ping.Some? ==> srv.ping.value in ws[i].flows && ws[i].flows[srv.ping.value].server == s)
  {
    hide TableOk, Step, Dangles;
    RunKeeps(ws, acts, i);
  }

  // -------------------------------------------------------- lost servers

  /** An unused server slot points at no flow, so no delete dangles. */
  ghost predicate Clean(w: World) {
    forall i :: 0 <= i < |w.servers| && w.servers[i].state == Uninit ==> w.servers[i].ping.None?
  }

  /** A known server that is registered again without finding a local address, while it has a ping out. */
  predicate LosesServer(w: World, a: Action) {
    a.Register? && a.version <= MAX_VERSION && a.source.None? &&
    var s := ServerByIp(w.servers, a.ip, a.scope, 0);
    s.Some? && w.servers[s.value].ping.Some?
  }

  lemma RegisterClean(w: World, a: Action)
    requires AtRest(w) && Clean(w) && a.Register?
    ensures Clean(Step(w, a)) <==> !LosesServer(w, a)
  {
    hide AtRest, Enrolled, ServerByIp;
    if a.version <= MAX_VERSION {
      match ServerByIp(w.servers, a.ip, a.scope, 0)
      case Some(s) =>
        assert Step(w, a).servers[s] == Filled(w.servers[s], a.version, a.source);
      case None =>
    }
  }

  /** Unused slots stay free of pointers exactly if the call does not lose a server that has a ping out. */
  lemma StepClean(w: World, a: Action)
    requires AtRest(w) && Clean(w) && Enabled(w, a)
    ensures !Dangles(w, a)
    ensures Clean(Step(w, a)) <==> !LosesServer(w, a)
  {
    hide TableOk, PingsOk, FlowOk, AddServer, NewFlow, PulseRun, LosesServer, FlowMoves;
    OnlyRegistersLose(w, a);
    match a
    case Register(_, _, _, _, _) => RegisterClean(w, a);
    case Open(kd, lifetime, ext, now) => OpenKeeps(w, 0, kd, lifetime, ext, now);
    case Beat(g, t, d, tout) => PulseKeeps(w, Delivered(w, g), t, d, tout);
    case _ =>
  }

  lemma OnlyRegistersLose(w: World, a: Action)
    ensures LosesServer(w, a) ==> a.Register?
  {
  }

  /** Where no registration loses a server, unused slots stay clean: no delete can dangle. */
  lemma {:induction false} RunClean(ws: seq<World>, acts: seq<Action>, i: nat)
    requires IsRun(ws, acts) && Clean(ws[0]) && i < |ws|
    requires forall k :: 0 <= k < i ==> !LosesServer(ws[k], acts[k])
    ensures Clean(ws[i])
    ensures AtRest(ws[i]) && forall a :: Enabled(ws[i], a) ==> !Dangles(ws[i], a)
  {
    hide AtRest, Step, LosesServer, Enabled;
    RunKeeps(ws, acts, i);
    if i > 0 {
      RunClean(ws, acts, i - 1);
      RunKeeps(ws, acts, i - 1);
      StepClean(ws[i - 1], acts[i - 1]);
    }
    forall a | Enabled(ws[i], a)
      ensures !Dangles(ws[i], a)
    {
      StepClean(ws[i], a);
    }
  }

  /** Losing a server while flow id is its ping makes the delete of that flow the one that dangles. */
  lemma LostServerDangles(w: World, a: Action, id: nat)
    requires AtRest(w) && LosesServer(w, a)
    requires w.servers[ServerByIp(w.servers, a.ip, a.scope, 0).value].ping == Some(id)
    ensures var w1 := Step(w, a); AtRest(w1) && id in w1.flows && Dangles(w1, Delete(id)) && !PingsOk(Step(w1, Delete(id)))
  {
    LostSlot(w, a);
    RegisterKeeps(w, a);
    hide TableOk, FlowOk, AddServer, ServerByIp, Deleted, LosesServer, Settled;
    DeleteKeepsPings(Step(w, a), id);
  }

  /** A known server that is registered without a local address goes unused; every other server stays as it was. */
  lemma RegisterLoses(w: World, a: Action)
    requires AtRest(w) && a.Register? && a.version <= 2 && a.source.None?
    requires ServerByIp(w.servers, a.ip, a.scope, 0).Some?
    ensures var s := ServerByIp(w.servers, a.ip, a.scope, 0).value;
      Step(w, a).servers == w.servers[s := w.servers[s].(version := a.version, state := Uninit)]
  {
    hide AtRest, ServerByIp;
  }

  lemma LostSlot(w: World, a: Action)
    requires AtRest(w) && LosesServer(w, a)
    ensures var s, r := ServerByIp(w.servers, a.ip, a.scope, 0).value, Step(w, a);
      s < |r.servers| && r.servers[s].state == Uninit && r.servers[s].ping == w.servers[s].ping
  {
    hide AtRest, ServerByIp;
  }

  // ------------------------------------------------ what a claim rests on

  /** Action a hands flow id a response that the server sent for it. */
  ghost predicate Answers(w: World, a: Action, id: nat)
    requires AtRest(w)
  {
    a.Beat? && Answered(w, Delivered(w, a.g)) == Some(id)
  }

  /**
   Action a is why flow id claims the mapping in g: it delivers a success response that the flow
   awaited and whose fields g holds, or a response that shows that the server restarted, and g
   holds the mapping the flow had before.
   */
  ghost predicate Grants(w: World, a: Action, id: nat, g: Flow)
    requires AtRest(w) && Enabled(w, a)
  {
    id in w.flows && Answers(w, a, id) &&
    var r := Delivered(w, a.g).value;
    (RestartNoticed(w, r.s, r.m, a.t.now) && SameMapping(w.flows[id], g)) ||
    (r.m.result == 0 && (w.flows[id].state == WaitResp || w.flows[id].state == WaitRenew) &&
     GrantedBy(g, Resolved(w.servers[r.s], r.m)))
  }

  predicate SameClaim(f: Flow, g: Flow) {
    KeepsGrant(f, g) && f.kd.op == g.kd.op
  }

  lemma FlowCallKeepsClaim(w: World, a: Action, id: nat)
    requires AtRest(w) && Enabled(w, a) && !a.Beat? && id in w.flows && id in Step(w, a).flows
    ensures SameClaim(w.flows[id], Step(w, a).flows[id])
  {
    hide TableOk, PingsOk, NewFlow, FlowOk, Enrolled, ServerByIp;
    if a.Open? {
      OpenKeeps(w, 0, a.kd, a.lifetime, a.ext, a.now);
    }
  }

  lemma BeatKeepsClaim(w: World, a: Action, id: nat)
    requires AtRest(w) && Enabled(w, a) && a.Beat? && id in w.flows
    ensures id in Step(w, a).flows && w.flows[id].kd.op == Step(w, a).flows[id].kd.op
    ensures SameClaim(w.flows[id], Step(w, a).flows[id]) || Grants(w, a, id, Step(w, a).flows[id])
  {
    hide TableOk, PingsOk, FlowOk, Iter, DriveFrom, Target, RestartNoticed, Delivered;
    var r := Delivered(w, a.g);
    PulseKeeps(w, r, a.t, a.d, a.tout);
    assert FlowMoves(w.flows[id], Step(w, a).flows[id], Answered(w, r));
    if Answered(w, r) == Some(id) {
      if RestartNoticed(w, r.value.s, r.value.m, a.t.now) {
        TriggerKeepsMapping(w, r.value.s, r.value.m, a.t.now, a.t.env, id);
      } else {
        TargetGrant(w, r.value.s, r.value.m, a.t.now, a.t.env, id);
      }
      ReceivedAtRest(w, r, a.t);
      var w1 := Received(w, r, a.t);
      DriveFromKeeps(w1, 0, a.d, a.tout);
      assert FlowMoves(w1.flows[id], Step(w, a).flows[id], None);
    }
  }

  /**
   No success without a response: a flow that comes to claim a mapping was answered on the way,
   and the claim it ends with is that of one such answer.
   */
  lemma {:induction false} SuccessNeedsResponse(ws: seq<World>, acts: seq<Action>, i: nat, j: nat, id: nat)
    requires IsRun(ws, acts) && i <= j < |ws|
    requires forall k :: i <= k <= j ==> id in ws[k].flows
    requires !Renewing(ws[i].flows[id].state) && Renewing(ws[j].flows[id].state)
    ensures exists k :: i <= k < j && AtRest(ws[k]) && Enabled(ws[k], acts[k]) && Grants(ws[k], acts[k], id, ws[j].flows[id])
    decreases j
  {
    hide AtRest, Step, Enabled, Answers, RestartNoticed, Delivered, Resolved;
    var k := j - 1;
    RunKeeps(ws, acts, k);
    if acts[k].Beat? {
      BeatKeepsClaim(ws[k], acts[k], id);
    } else {
      FlowCallKeepsClaim(ws[k], acts[k], id);
    }
    if !Grants(ws[k], acts[k], id, ws[j].flows[id]) {
      SuccessNeedsResponse(ws, acts, i, k, id);
    }
  }
}
