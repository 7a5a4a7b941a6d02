/** What the server machine keeps at every step, and why driving one server ends. */
module ServerRuns {
  import opened Base
  import opened FlowKey
  import opened FlowMachine
  import opened FlowRuns
  import opened ServerMachine

  /** Holds in every reachable world. */
  ghost predicate WorldOk(w: World) {
    && Wired(w)
    && (forall id :: id in w.flows ==> w.flows[id].id == id && w.flows[id].server < |w.servers| && FlowOk(w.flows[id]))
    && (forall i :: 0 <= i < |w.servers| ==> w.servers[i].version <= MAX_VERSION)
  }

  /** States that the drive loop must leave again at once. */
  predicate Transient(st: ServerState) {
    st == VersionNeg || st == SendAll || st == CalcNearest || st == Restart || st == Reping || st == SetNotWorking
  }

  /** A server between two drives: in a resting state, with no restart pending. */
  predicate Settled(srv: Server) {
    !Transient(srv.state) && srv.restart.None?
  }

  /** A server while it is driven. */
  predicate Driven(srv: Server, now: int) {
    && (srv.restart.Some? ==> srv.state == Restart)
    && (Transient(srv.state) ==> Due(srv, now))
    && (srv.state == VersionNeg ==> srv.nextVersion <= MAX_VERSION)
  }

  ghost predicate Driving(w: World, s: nat, now: int) {
    && WorldOk(w) && s < |w.servers|
    && Driven(w.servers[s], now)
    && (forall i :: 0 <= i < |w.servers| && i != s ==> Settled(w.servers[i]))
  }

  /** How one flow may change: its identity stays and, unless it is the hot flow, so do its mapping and its lack of one. */
  predicate FlowMoves(f: Flow, g: Flow, hot: Option<nat>) {
    SameIdentity(f, g) && (hot != Some(f.id) ==> KeepsGrant(f, g) && SameMapping(f, g))
  }

  /** Only server s may have changed; no flow disappears, and only the hot flow may gain a mapping. */
  ghost predicate Evolves(w: World, w': World, s: nat, hot: Option<nat>) {
    && |w'.servers| == |w.servers| && w'.maxPing == w.maxPing && w'.nextId >= w.nextId
    && (forall i :: 0 <= i < |w.servers| && i != s ==> w'.servers[i] == w.servers[i])
    && (s < |w.servers| ==> SameServer(w.servers[s], w'.servers[s]))
    && (forall id :: id in w.flows ==> id in w'.flows && FlowMoves(w.flows[id], w'.flows[id], hot))
  }

  /** Same table and servers: only the contents of flows moved on. */
  ghost predicate FlowsOnly(w: World, w': World, hot: Option<nat>) {
    && w'.servers == w.servers && w'.order == w.order && w'.maxPing == w.maxPing && w'.nextId == w.nextId
    && w'.flows.Keys == w.flows.Keys
    && (forall id :: id in w.flows ==> FlowMoves(w.flows[id], w'.flows[id], hot))
  }

  /** No server has a restart pending, but for the hot flow. */
  ghost predicate Quiet(w: World, hot: Option<nat>) {
    forall i :: 0 <= i < |w.servers| && w.servers[i].restart.Some? ==> w.servers[i].restart == hot
  }

  /** The clock stands still at `now` while server s is driven. */
  ghost predicate Still(env: Env, now: int) {
    now > 0 && Frozen(env, now)
  }

  // ---------------------------------------------------- building blocks

  lemma EvolvesChain(w: World, w1: World, w2: World, s: nat, hot: Option<nat>)
    requires Evolves(w, w1, s, hot) && Evolves(w1, w2, s, hot)
    ensures Evolves(w, w2, s, hot)
  {
  }

  lemma FlowsOnlyChain(w: World, w1: World, w2: World, hot: Option<nat>)
    requires FlowsOnly(w, w1, hot) && FlowsOnly(w1, w2, hot)
    ensures FlowsOnly(w, w2, hot)
  {
  }

  /** A server's new value fits the world: its version is supported and its ping is one of its own flows. */
  ghost predicate Fits(w: World, s: nat, srv: Server)
    requires s < |w.servers|
  {
    srv.version <= MAX_VERSION && SameServer(w.servers[s], srv) &&
    (srv.ping.Some? ==> srv.ping.value in w.flows && w.flows[srv.ping.value].server == s)
  }

  lemma OwnServerFits(w: World, s: nat)
    requires WorldOk(w) && s < |w.servers|
    ensures Fits(w, s, w.servers[s])
  {
  }

  /** Writing server s after moving flows on. */
  lemma PutServerKeeps(w: World, w1: World, s: nat, srv: Server, hot: Option<nat>)
    requires WorldOk(w1) && FlowsOnly(w, w1, hot) && s < |w.servers| && Fits(w, s, srv)
    ensures WorldOk(PutServer(w1, s, srv)) && Evolves(w, PutServer(w1, s, srv), s, hot)
  {
  }

  /** Writing server s alone. */
  lemma WriteKeeps(w: World, s: nat, srv: Server)
    requires WorldOk(w) && s < |w.servers| && Fits(w, s, srv)
    ensures WorldOk(PutServer(w, s, srv)) && Evolves(w, PutServer(w, s, srv), s, None)
  {
  }

  lemma MovesReflexive(w: World, hot: Option<nat>)
    ensures forall id :: id in w.flows ==> FlowMoves(w.flows[id], w.flows[id], hot)
  {
  }

  lemma FlowsOnlyReflexive(w: World, hot: Option<nat>)
    ensures FlowsOnly(w, w, hot)
  {
  }

  /** Rewriting one flow, at any position of the oracle. */
  lemma ReplaceKeeps(w: World, f: Flow, tick: nat, hot: Option<nat>)
    requires WorldOk(w) && f.id in w.flows && FlowMoves(w.flows[f.id], f, hot) && FlowOk(f)
    ensures WorldOk(w.(flows := w.flows[f.id := f], tick := tick))
    ensures FlowsOnly(w, w.(flows := w.flows[f.id := f], tick := tick), hot)
  {
    hide FlowOk, KeepsGrant;
    MovesReflexive(w, hot);
  }

  lemma AddFlowKeeps(w: World, f: Flow, s: nat)
    requires WorldOk(w) && f.id == w.nextId && f.server < |w.servers| && FlowOk(f)
    ensures WorldOk(AddFlow(w, f)) && Evolves(w, AddFlow(w, f), s, None)
  {
    hide TableOk, AddFlow;
    AddFlowTable(w, f);
    AddFlowFrame(w, f);
    MovesReflexive(w, None);
  }

  lemma TickKeeps(w: World, tick: nat)
    requires WorldOk(w)
    ensures WorldOk(w.(tick := tick))
  {
    hide FlowOk, Precedes;
  }

  lemma AddFlowFrame(w: World, f: Flow)
    requires TableOk(w) && f.id == w.nextId
    ensures f.id !in w.flows && AddFlow(w, f).nextId == w.nextId + 1 && AddFlow(w, f).maxPing == w.maxPing
  {
  }

  /** Driving continues when only server s moved, to a value that may be driven. */
  lemma StillDriving(w: World, r: World, s: nat, now: int, hot: Option<nat>)
    requires Driving(w, s, now) && WorldOk(r) && Evolves(w, r, s, hot) && Driven(r.servers[s], now)
    ensures Driving(r, s, now)
  {
  }

  lemma OwnWriteKeeps(w: World, s: nat, srv: Server, now: int)
    requires Driving(w, s, now) && Fits(w, s, srv) && Driven(srv, now)
    ensures Driving(PutServer(w, s, srv), s, now) && Evolves(w, PutServer(w, s, srv), s, None)
  {
    WriteKeeps(w, s, srv);
  }

  lemma HandleFlowKeeps(w: World, id: nat, ev: FlowEvent, m: Option<Msg>, env: Env, hot: Option<nat>)
    requires WorldOk(w) && Quiet(w, hot) && id in w.flows && ClockPositive(env)
    requires (ev.Res? ==> m.Some? && hot == Some(id)) && ev != MsgSent && ev != Ignored
    ensures WorldOk(HandleFlow(w, id, ev, m, env))
    ensures FlowsOnly(w, HandleFlow(w, id, ev, m, env), hot)
    ensures forall j :: j in w.flows && j != id ==> HandleFlow(w, id, ev, m, env).flows[j] == w.flows[j]
  {
    hide Drain, TableOk, PingsOk;
    var f := w.flows[id];
    var g := Drain(f, ev, CtxOf(w, f), m, env, w.tick);
    DrainKeepsFlowOk(f, ev, CtxOf(w, f), m, env, w.tick);
    if hot != Some(id) {
      DrainKeepsGrant(f, ev, CtxOf(w, f), m, env, w.tick);
      DrainKeepsMapping(f, ev, CtxOf(w, f), m, env, w.tick);
    }
    ReplaceKeeps(w, g.flow, g.tick, hot);
  }

  // ------------------------------------------------------------- sweeps

  /** The events that a server broadcasts. */
  predicate Broadcast(job: Job) {
    job.Tell? ==> job.ev == ServerInitialized || job.ev == ServerRestarted || job.ev == Fail
  }

  lemma VisitKeeps(job: Job, w: World, id: nat, now: int, env: Env, tout: int, hot: Option<nat>)
    requires WorldOk(w) && Quiet(w, hot) && id in w.flows && Broadcast(job) && ClockPositive(env)
    ensures WorldOk(Visit(job, w, id, now, env, tout).0)
    ensures FlowsOnly(w, Visit(job, w, id, now, env, tout).0, hot)
    ensures forall j :: j in w.flows && j != id ==> Visit(job, w, id, now, env, tout).0.flows[j] == w.flows[j]
    ensures tout >= 0 ==> Visit(job, w, id, now, env, tout).1 >= 0
  {
    hide TableOk, PingsOk, HandleFlow, FlowMoves, FlowOk;
    FlowsOnlyReflexive(w, hot);
    if job.Tell? && w.flows[id].server == job.s {
      var w1 := HandleFlow(w, id, job.ev, None, env);
      HandleFlowKeeps(w, id, job.ev, None, env, hot);
      HandleFlowKeeps(w1, id, TimedOut, None, env, hot);
      FlowsOnlyChain(w, w1, HandleFlow(w1, id, TimedOut, None, env), hot);
    } else if job.CheckAll? {
      HandleFlowKeeps(w, id, TimedOut, None, env, hot);
    }
  }

  lemma {:induction false} SweepKeeps(job: Job, w: World, ids: seq<nat>, now: int, env: Env, tout: int, hot: Option<nat>)
    requires WorldOk(w) && Quiet(w, hot) && Broadcast(job) && ClockPositive(env)
    requires forall id :: id in ids ==> id in w.flows
    ensures WorldOk(Sweep(job, w, ids, now, env, tout).0)
    ensures FlowsOnly(w, Sweep(job, w, ids, now, env, tout).0, hot)
    ensures forall j :: j in w.flows && j !in ids ==> Sweep(job, w, ids, now, env, tout).0.flows[j] == w.flows[j]
    ensures tout >= 0 ==> Sweep(job, w, ids, now, env, tout).1 >= 0
    decreases |ids|
  {
    hide TableOk, PingsOk, Visit;
    if ids != [] {
      VisitKeeps(job, w, ids[0], now, env, tout, hot);
      var (w', t) := Visit(job, w, ids[0], now, env, tout);
      SweepKeeps(job, w', ids[1..], now, env, t, hot);
      FlowsOnlyChain(w, w', Sweep(job, w', ids[1..], now, env, t).0, hot);
    }
  }

  /** A broadcast followed by a write of server s. */
  lemma TellKeeps(w: World, s: nat, ev: FlowEvent, r: World, now: int, env: Env)
    requires Driving(w, s, now) && Still(env, now) && Broadcast(Tell(s, ev))
    requires |r.servers| == |w.servers| && Fits(w, s, r.servers[s]) && Driven(r.servers[s], now)
    requires r == Sweep(Tell(s, ev), w, w.order, now, env, w.servers[s].nextTimeout).0.(servers := w.servers[s := r.servers[s]])
    ensures Driving(r, s, now) && Evolves(w, r, s, w.servers[s].restart)
  {
    hide PingsOk;
    var hot := w.servers[s].restart;
    var w1 := Sweep(Tell(s, ev), w, w.order, now, env, w.servers[s].nextTimeout).0;
    SweepKeeps(Tell(s, ev), w, w.order, now, env, w.servers[s].nextTimeout, hot);
    PutServerKeeps(w, w1, s, r.servers[s], hot);
    assert r == PutServer(w1, s, r.servers[s]);
    StillDriving(w, r, s, now, hot);
  }

  lemma OnSendAllKeeps(w: World, s: nat, now: int, env: Env)
    requires Driving(w, s, now) && Still(env, now) && w.servers[s].state == SendAll
    ensures Driving(OnSendAll(w, s, now, env), s, now) && Evolves(w, OnSendAll(w, s, now, env), s, None)
    ensures OnSendAll(w, s, now, env).servers[s].state == CalcNearest
  {
    OwnServerFits(w, s);
    TellKeeps(w, s, ServerInitialized, OnSendAll(w, s, now, env), now, env);
  }

  lemma OnRestartKeeps(w: World, s: nat, now: int, env: Env)
    requires Driving(w, s, now) && Still(env, now) && w.servers[s].state == Restart
    ensures Driving(OnRestart(w, s, now, env), s, now) && Evolves(w, OnRestart(w, s, now, env), s, w.servers[s].restart)
    ensures OnRestart(w, s, now, env).servers[s].state == CalcNearest
  {
    OwnServerFits(w, s);
    TellKeeps(w, s, ServerRestarted, OnRestart(w, s, now, env), now, env);
  }

  lemma OnSetNotWorkingKeeps(w: World, s: nat, now: int, env: Env)
    requires Driving(w, s, now) && Still(env, now) && w.servers[s].state == SetNotWorking
    ensures Driving(OnSetNotWorking(w, s, now, env), s, now) && Evolves(w, OnSetNotWorking(w, s, now, env), s, None)
    ensures OnSetNotWorking(w, s, now, env).servers[s].state == NotWorking
    ensures !Due(OnSetNotWorking(w, s, now, env).servers[s], now)
  {
    OwnServerFits(w, s);
    TellKeeps(w, s, Fail, OnSetNotWorking(w, s, now, env), now, env);
  }

  /** The timer pass leaves a future deadline or none. */
  lemma OnTimersKeeps(w: World, s: nat, now: int, env: Env)
    requires Driving(w, s, now) && Still(env, now) && (w.servers[s].state == WaitIo || w.servers[s].state == CalcNearest)
    ensures Driving(OnTimers(w, s, now, env), s, now) && Evolves(w, OnTimers(w, s, now, env), s, None)
    ensures OnTimers(w, s, now, env).servers[s].state == WaitIo && !Due(OnTimers(w, s, now, env).servers[s], now)
  {
    var r := OnTimers(w, s, now, env);
    var w1 := Sweep(CheckAll, w, w.order, now, env, 0).0;
    OwnServerFits(w, s);
    SweepKeeps(CheckAll, w, w.order, now, env, 0, None);
    PutServerKeeps(w, w1, s, r.servers[s], None);
    assert r == PutServer(w1, s, r.servers[s]);
    StillDriving(w, r, s, now, None);
  }

  // ------------------------------------------------------------ pinging

  /** Bounds the handler calls left in the drive loop. */
  function Rank(srv: Server, now: int, maxPing: nat): (r: nat) {
    if !Due(srv, now) then 0
    else
      match srv.state
      case NotWorking => 3
      case VersionNeg => 2
      case SendAll => 2
      case Restart => 2
      case Reping => 2
      case WaitPingResp => 2 + Max(0, maxPing - srv.pingCount)
      case _ => 1
  }

  /** One try of the ping loop, or of the last step of version negotiation: send flow f of server s. */
  lemma SendKeeps(w: World, s: nat, f: Flow, now: int, env: Env)
    requires WorldOk(w) && s < |w.servers| && Quiet(w, None) && Still(env, now)
    requires f.id in w.flows && FlowMoves(w.flows[f.id], f, None) && FlowOk(f) && f.server == s
    ensures var r := HandleFlow(w.(flows := w.flows[f.id := f]), f.id, SendNow, None, env);
      WorldOk(r) && FlowsOnly(w, r, None) && SentOrFailed(r.flows[f.id], now) &&
      forall j :: j in w.flows && j != f.id ==> r.flows[j] == w.flows[j]
  {
    hide TableOk, PingsOk;
    var w1 := w.(flows := w.flows[f.id := f]);
    ReplaceKeeps(w, f, w.tick, None);
    HandleFlowKeeps(w1, f.id, SendNow, None, env, None);
    FlowsOnlyChain(w, w1, HandleFlow(w1, f.id, SendNow, None, env), None);
    DrainSends(f, SendNow, CtxOf(w1, f), env, w1.tick, now);
  }

  /** One round of the ping loop with candidate id. */
  lemma PingTry(w: World, s: nat, id: nat, now: int, env: Env)
    requires WorldOk(w) && s < |w.servers| && Quiet(w, None) && Still(env, now)
    requires id in w.flows && Candidate(w.flows[id], s)
    ensures var w2 := PingTried(w, s, id, env);
      WorldOk(w2) && Evolves(w, w2, s, None) && Quiet(w2, None) && w2.order == w.order &&
      SentOrFailed(w2.flows[id], now) && w2.servers[s] == w.servers[s].(ping := Some(id)) &&
      Fits(w2, s, w2.servers[s]) && w2.flows.Keys == w.flows.Keys &&
      forall j :: j in w.flows && j != id ==> w2.flows[j] == w.flows[j]
  {
    hide HandleFlow, PingsOk, TableOk;
    var f := w.flows[id].(retry := 0, resends := 0);
    var w0 := PutServer(w, s, w.servers[s].(ping := Some(id)));
    OwnServerFits(w, s);
    WriteKeeps(w, s, w.servers[s].(ping := Some(id)));
    SendKeeps(w0, s, f, now, env);
    var w2 := PingTried(w, s, id, env);
    PutServerKeeps(w0, w2, s, w2.servers[s], None);
    assert w2 == PutServer(w2, s, w2.servers[s]);
    EvolvesChain(w, w0, w2, s, None);
    OwnServerFits(w2, s);
  }

  /** The ping loop ends with a ping on its way, or with no deadline because no flow is left to ping with. */
  lemma {:induction false} PingLoopKeeps(w: World, s: nat, now: int, env: Env)
    requires WorldOk(w) && s < |w.servers| && Quiet(w, None) && Still(env, now)
    ensures WorldOk(PingLoop(w, s, env)) && Evolves(w, PingLoop(w, s, env), s, None)
    ensures Pinged(PingLoop(w, s, env).servers[s], now) && PingLoop(w, s, env).servers[s].state != SetNotWorking
    decreases Candidates(w, s)
  {
    hide PingsOk, PingTried, FlowMoves, FlowOk;
    OwnServerFits(w, s);
    match FirstCandidate(w, s, w.order)
    case None =>
      WriteKeeps(w, s, w.servers[s].(ping := None, nextTimeout := 0, state := Ping));
    case Some(id) =>
      PingTry(w, s, id, now, env);
      var w2 := PingTried(w, s, id, env);
      var g := w2.flows[id];
      if g.state != Failed {
        var srv := w2.servers[s].(nextTimeout := g.timeout, state := WaitPingResp);
        WriteKeeps(w2, s, srv);
        EvolvesChain(w, w2, PutServer(w2, s, srv), s, None);
      } else {
        assert id in Candidates(w, s) && id !in Candidates(w2, s);
        assert Candidates(w2, s) <= Candidates(w, s);
        PingLoopKeeps(w2, s, now, env);
        EvolvesChain(w, w2, PingLoop(w2, s, env), s, None);
      }
  }

  lemma OnPingKeeps(w: World, s: nat, now: int, env: Env)
    requires Driving(w, s, now) && Still(env, now) && w.servers[s].state == Ping
    ensures Driving(OnPing(w, s, env), s, now) && Evolves(w, OnPing(w, s, env), s, None)
    ensures !Due(OnPing(w, s, env).servers[s], now) && OnPing(w, s, env).servers[s].state in {Ping, WaitPingResp}
  {
    hide TableOk, PingsOk, PingLoop;
    var w1 := PutServer(w, s, w.servers[s].(pingCount := 0));
    OwnServerFits(w, s);
    WriteKeeps(w, s, w.servers[s].(pingCount := 0));
    PingLoopKeeps(w1, s, now, env);
    EvolvesChain(w, w1, OnPing(w, s, env), s, None);
    StillDriving(w, OnPing(w, s, env), s, now, None);
  }

  lemma OnPingTimeoutKeeps(w: World, s: nat, now: int, env: Env)
    requires Driving(w, s, now) && Still(env, now) && w.servers[s].state == WaitPingResp && Due(w.servers[s], now)
    ensures Driving(OnPingTimeout(w, s, now, env), s, now) && Evolves(w, OnPingTimeout(w, s, now, env), s, None)
    ensures Rank(OnPingTimeout(w, s, now, env).servers[s], now, w.maxPing) < Rank(w.servers[s], now, w.maxPing)
    ensures OnPingTimeout(w, s, now, env).servers[s].state in {Ping, WaitPingResp, SetNotWorking}
  {
    hide TableOk, HandleFlow, FlowOk, FlowMoves;
    FlowsOnlyReflexive(w, None);
    var r := OnPingTimeout(w, s, now, env);
    var srv := w.servers[s];
    OwnServerFits(w, s);
    var w1 := if srv.pingCount + 1 >= w.maxPing || srv.ping.None? then w
              else HandleFlow(w, srv.ping.value, TimedOut, None, env);
    if srv.pingCount + 1 < w.maxPing && srv.ping.Some? {
      HandleFlowKeeps(w, srv.ping.value, TimedOut, None, env, None);
    }
    assert r == PutServer(w1, s, r.servers[s]);
    PutServerKeeps(w, w1, s, r.servers[s], None);
    StillDriving(w, r, s, now, None);
  }

  // ------------------------------------------------- version negotiation

  /** Where a renewed ping leaves its server. */
  predicate Pinged(srv: Server, now: int) {
    srv.restart.None? &&
    ((srv.state == SetNotWorking && Due(srv, now)) || (srv.state == WaitPingResp && srv.nextTimeout > now) ||
     (srv.state == Ping && srv.nextTimeout == 0))
  }

  /** The send in PingAgain, before the server is written. */
  lemma SentAgain(w: World, s: nat, id: nat, now: int, env: Env)
    requires WorldOk(w) && s < |w.servers| && id in w.flows && w.flows[id].server == s
    requires Quiet(w, None) && Still(env, now)
    ensures var f := w.flows[id].(retry := 0, resends := 0, rt := 0);
      var w1 := HandleFlow(w.(flows := w.flows[id := f]), id, SendNow, None, env);
      WorldOk(w1) && FlowsOnly(w, w1, None) && SentOrFailed(w1.flows[id], now)
  {
    hide TableOk, HandleFlow, PingsOk;
    SendKeeps(w, s, w.flows[id].(retry := 0, resends := 0, rt := 0), now, env);
  }

  lemma PingAgainKeeps(w: World, s: nat, id: nat, now: int, env: Env)
    requires WorldOk(w) && s < |w.servers| && id in w.flows && w.flows[id].server == s
    requires Quiet(w, None) && Still(env, now) && Due(w.servers[s], now)
    ensures WorldOk(PingAgain(w, s, id, env)) && Evolves(w, PingAgain(w, s, id, env), s, None)
    ensures Pinged(PingAgain(w, s, id, env).servers[s], now)
  {
    SentAgain(w, s, id, now, env);
    OwnServerFits(w, s);
    hide TableOk, PingsOk, HandleFlow, FlowOk, FlowMoves, Evolves;
    var f := w.flows[id].(retry := 0, resends := 0, rt := 0);
    var w1 := HandleFlow(w.(flows := w.flows[id := f]), id, SendNow, None, env);
    var r := PingAgain(w, s, id, env);
    assert r == PutServer(w1, s, r.servers[s]);
    PutServerKeeps(w, w1, s, r.servers[s], None);
  }

  lemma AddAnnounceKeeps(w: World, s: nat)
    requires WorldOk(w) && s < |w.servers|
    ensures WorldOk(AddAnnounce(w, s)) && Evolves(w, AddAnnounce(w, s), s, None)
    ensures w.nextId in AddAnnounce(w, s).flows && AddAnnounce(w, s).flows[w.nextId].server == s
    ensures AddAnnounce(w, s).servers == w.servers[s := w.servers[s].(ping := Some(w.nextId))]
  {
    hide TableOk;
    var f := AnnounceFlow(w, s);
    AddFlowKeeps(w, f, s);
    var w2 := AddFlow(w, f);
    OwnServerFits(w2, s);
    WriteKeeps(w2, s, w2.servers[s].(ping := Some(f.id)));
    EvolvesChain(w, w2, AddAnnounce(w, s), s, None);
  }

  lemma PingWithAnnounceKeeps(w: World, s: nat, now: int, env: Env)
    requires WorldOk(w) && s < |w.servers| && Quiet(w, None) && Still(env, now) && Due(w.servers[s], now)
    ensures WorldOk(PingWithAnnounce(w, s, env)) && Evolves(w, PingWithAnnounce(w, s, env), s, None)
    ensures Pinged(PingWithAnnounce(w, s, env).servers[s], now)
  {
    hide TableOk, PingAgain, AddAnnounce;
    var srv := w.servers[s];
    OwnServerFits(w, s);
    var w1 := if srv.ping.None? then w
              else w.(flows := w.flows[srv.ping.value := w.flows[srv.ping.value].(state := WaitServerInit, timeout := 0)]);
    FlowsOnlyReflexive(w, None);
    if srv.ping.Some? {
      ReplaceKeeps(w, w.flows[srv.ping.value].(state := WaitServerInit, timeout := 0), w.tick, None);
    }
    PutServerKeeps(w, w1, s, srv, None);
    assert w1 == PutServer(w1, s, srv);
    AddAnnounceKeeps(w1, s);
    PingAgainKeeps(AddAnnounce(w1, s), s, w1.nextId, now, env);
    EvolvesChain(w, w1, AddAnnounce(w1, s), s, None);
    EvolvesChain(w, AddAnnounce(w1, s), PingWithAnnounce(w, s, env), s, None);
  }

  lemma PingWithFlowKeeps(w: World, s: nat, now: int, env: Env)
    requires WorldOk(w) && s < |w.servers| && Quiet(w, None) && Still(env, now) && Due(w.servers[s], now)
    ensures WorldOk(PingWithFlow(w, s, env)) && Evolves(w, PingWithFlow(w, s, env), s, None)
    ensures Pinged(PingWithFlow(w, s, env).servers[s], now)
  {
    hide PingAgain;
    var srv := w.servers[s];
    OwnServerFits(w, s);
    if srv.ping.Some? {
      PingAgainKeeps(w, s, srv.ping.value, now, env);
    } else if FirstCandidate(w, s, w.order).Some? {
      var id := FirstCandidate(w, s, w.order).value;
      var w1 := PutServer(w, s, srv.(ping := Some(id)));
      WriteKeeps(w, s, srv.(ping := Some(id)));
      PingAgainKeeps(w1, s, id, now, env);
      EvolvesChain(w, w1, PingWithFlow(w, s, env), s, None);
    } else {
      WriteKeeps(w, s, srv.(nextTimeout := 0, state := Ping));
    }
  }

  lemma NegotiatedKeeps(w: World, w1: World, s: nat, now: int, env: Env)
    requires Driving(w, s, now) && WorldOk(w1) && Evolves(w, w1, s, None) && Still(env, now)
    requires w1.servers[s].restart.None? && Due(w1.servers[s], now)
    ensures var r := if w1.servers[s].version == 0 then PingWithAnnounce(w1, s, env) else PingWithFlow(w1, s, env);
      Driving(r, s, now) && Evolves(w, r, s, None) && Pinged(r.servers[s], now)
  {
    hide TableOk, PingsOk, PingWithAnnounce, PingWithFlow;
    if w1.servers[s].version == 0 {
      PingWithAnnounceKeeps(w1, s, now, env);
      EvolvesChain(w, w1, PingWithAnnounce(w1, s, env), s, None);
      StillDriving(w, PingWithAnnounce(w1, s, env), s, now, None);
    } else {
      PingWithFlowKeeps(w1, s, now, env);
      EvolvesChain(w, w1, PingWithFlow(w1, s, env), s, None);
      StillDriving(w, PingWithFlow(w1, s, env), s, now, None);
    }
  }

  /** The version tried next is a supported one, although next_version is decremented as a byte. */
  lemma NextVersionInRange(srv: Server)
    requires 0 < srv.version <= MAX_VERSION && srv.nextVersion <= MAX_VERSION
    ensures NextVersion(srv) <= MAX_VERSION && NextVersion(srv) != srv.version
  {
  }

  lemma OnVersionNegotiationKeeps(w: World, s: nat, now: int, env: Env)
    requires Driving(w, s, now) && Still(env, now) && w.servers[s].state == VersionNeg
    ensures Driving(OnVersionNegotiation(w, s, env), s, now) && Evolves(w, OnVersionNegotiation(w, s, env), s, None)
    ensures Pinged(OnVersionNegotiation(w, s, env).servers[s], now)
  {
    hide TableOk, PingsOk, PingWithAnnounce, PingWithFlow;
    var srv := w.servers[s];
    OwnServerFits(w, s);
    if srv.version == 0 {
      OwnWriteKeeps(w, s, srv.(nextVersion := NextVersion(srv), state := SetNotWorking), now);
    } else {
      NextVersionInRange(srv);
      var srv' := srv.(nextVersion := NextVersion(srv), version := NextVersion(srv));
      WriteKeeps(w, s, srv');
      NegotiatedKeeps(w, PutServer(w, s, srv'), s, now, env);
    }
  }

  // --------------------------------------------------------- responses

  lemma ProcessKeeps(w: World, s: nat, m: Msg, env: Env)
    requires WorldOk(w) && s < |w.servers| && Quiet(w, None) && ClockPositive(env)
    ensures WorldOk(Process(w, s, m, env)) && Evolves(w, Process(w, s, m, env), s, Target(w, s, m))
    ensures Process(w, s, m, env).servers[s] == w.servers[s].(natpmpExt := Process(w, s, m, env).servers[s].natpmpExt)
    ensures Process(w, s, m, env).flows.Keys == w.flows.Keys
    ensures forall j :: j in w.flows && Target(w, s, m) != Some(j) ==> Process(w, s, m, env).flows[j] == w.flows[j]
  {
    hide TableOk, PingsOk, HandleFlow, FlowOk, KeepsGrant, SameIdentity, Target, Resolved;
    var srv := w.servers[s];
    var w1 := if m.version == 0 && m.kd.op == OP_ANNOUNCE
              then PutServer(w, s, srv.(natpmpExt := m.ext.ip[12..])) else w;
    OwnServerFits(w, s);
    WriteKeeps(w, s, w1.servers[s]);
    assert w1 == PutServer(w, s, w1.servers[s]);
    if Target(w, s, m).Some? {
      var id := Target(w, s, m).value;
      HandleFlowKeeps(w1, id, Res(m.result), Some(Resolved(srv, m)), env, Some(id));
      PutServerKeeps(w1, Process(w, s, m, env), s, w1.servers[s], Some(id));
      assert Process(w, s, m, env) == PutServer(Process(w, s, m, env), s, w1.servers[s]);
      EvolvesChain(w, w1, Process(w, s, m, env), s, Some(id));
    }
  }

  /** Message m took server s to pss_server_restart exactly when `cond` held and its result was not handled before. */
  ghost predicate EntersRestart(w: World, s: nat, m: Msg, r: World, cond: bool)
    requires Wired(w) && s < |w.servers| && s < |r.servers|
  {
    var yes := cond && m.result != UNSUPP_VERSION && m.result != ADDRESS_MISMATCH;
    (yes <==> r.servers[s].state == Restart) && (yes ==> r.servers[s].restart == Target(w, s, m))
  }

  lemma EpochIgnoresAddress(srv: Server, a: V4, m: Msg)
    ensures EpochRestart(srv.(natpmpExt := a), m) == EpochRestart(srv, m)
  {
  }

  lemma OnReceiveKeeps(w: World, s: nat, m: Msg, now: int, env: Env)
    requires Driving(w, s, now) && Still(env, now) && m.version <= MAX_VERSION
    requires w.servers[s].state == WaitIo || w.servers[s].state == WaitPingResp
    ensures Driving(OnReceive(w, s, m, now, env), s, now)
    ensures Evolves(w, OnReceive(w, s, m, now, env), s, Target(w, s, m))
    ensures Transient(OnReceive(w, s, m, now, env).servers[s].state)
    ensures OnReceive(w, s, m, now, env).servers[s].restart in {None, Target(w, s, m)}
    ensures EntersRestart(w, s, m, OnReceive(w, s, m, now, env), EpochRestart(w.servers[s], m))
  {
    hide TableOk, PingsOk, Process, Target, EpochRestart;
    var r := OnReceive(w, s, m, now, env);
    EpochIgnoresAddress(w.servers[s], Process(w, s, m, env).servers[s].natpmpExt, m);
    var w1 := if m.result == UNSUPP_VERSION || m.result == ADDRESS_MISMATCH then w else Process(w, s, m, env);
    ProcessKeeps(w, s, m, env);
    OwnServerFits(w1, s);
    PutServerKeeps(w1, w1, s, r.servers[s], Target(w, s, m));
    assert r == PutServer(w1, s, r.servers[s]);
    EvolvesChain(w, w1, r, s, Target(w, s, m));
    StillDriving(w, r, s, now, Target(w, s, m));
  }

  lemma OnPingReceiveKeeps(w: World, s: nat, m: Msg, now: int, env: Env)
    requires Driving(w, s, now) && Still(env, now) && m.version <= MAX_VERSION && w.servers[s].state == WaitPingResp
    ensures Driving(OnPingReceive(w, s, m, now, env), s, now)
    ensures Evolves(w, OnPingReceive(w, s, m, now, env), s, Target(w, s, m))
    ensures Transient(OnPingReceive(w, s, m, now, env).servers[s].state)
    ensures OnPingReceive(w, s, m, now, env).servers[s].restart in {None, Target(w, s, m)}
    ensures EntersRestart(w, s, m, OnPingReceive(w, s, m, now, env), EpochRestart(w.servers[s], m))
  {
    hide TableOk, PingsOk, OnReceive, Target;
    var r := OnPingReceive(w, s, m, now, env);
    var w1 := OnReceive(w, s, m, now, env);
    OnReceiveKeeps(w, s, m, now, env);
    OwnServerFits(w1, s);
    PutServerKeeps(w1, w1, s, r.servers[s], Target(w, s, m));
    assert r == PutServer(w1, s, r.servers[s]);
    EvolvesChain(w, w1, r, s, Target(w, s, m));
    StillDriving(w, r, s, now, Target(w, s, m));
  }

  lemma OnNotWorkingKeeps(w: World, s: nat, m: Msg, now: int, env: Env)
    requires Driving(w, s, now) && Still(env, now) && w.servers[s].state == NotWorking
    ensures var r := OnNotWorking(w, s, IoEvent(m), now, env);
      Driving(r, s, now) && Evolves(w, r, s, Target(w, s, m)) &&
      r.servers[s].state in {NotWorking, Reping, Restart} && r.servers[s].restart in {None, Target(w, s, m)} &&
      EntersRestart(w, s, m, r, now < w.servers[s].nextTimeout)
  {
    hide TableOk, PingsOk, Process, Target;
    var r := OnNotWorking(w, s, IoEvent(m), now, env);
    var w1 := if now >= w.servers[s].nextTimeout || m.result == UNSUPP_VERSION || m.result == ADDRESS_MISMATCH
              then w else Process(w, s, m, env);
    ProcessKeeps(w, s, m, env);
    OwnServerFits(w1, s);
    PutServerKeeps(w1, w1, s, r.servers[s], Target(w, s, m));
    assert r == PutServer(w1, s, r.servers[s]);
    EvolvesChain(w, w1, r, s, Target(w, s, m));
    StillDriving(w, r, s, now, Target(w, s, m));
  }

  // ------------------------------------------------------ one machine step

  /** A response keeps the world well formed, touches no other server and can give a mapping to its target only. */
  lemma ResponseKeeps(w: World, s: nat, m: Msg, now: int, env: Env)
    requires Driving(w, s, now) && Still(env, now) && Settled(w.servers[s]) && w.servers[s].state != Uninit
    requires m.version <= MAX_VERSION
    ensures Driving(Run(w, s, IoEvent(m), now, env), s, now)
    ensures Evolves(w, Run(w, s, IoEvent(m), now, env), s, Target(w, s, m))
    ensures Run(w, s, IoEvent(m), now, env).servers[s].state != Uninit
    ensures Run(w, s, IoEvent(m), now, env).servers[s].restart in {None, Target(w, s, m)}
  {
    hide OnPing, OnPingReceive, OnReceive, OnNotWorking, Target, TableOk, PingsOk;
    var srv := w.servers[s];
    OwnServerFits(w, s);
    match srv.state
    case Allocated => OwnWriteKeeps(w, s, srv.(nextTimeout := 0), now);
    case Ping => OnPingKeeps(w, s, now, env);
    case WaitPingResp => OnPingReceiveKeeps(w, s, m, now, env);
    case WaitIo => OnReceiveKeeps(w, s, m, now, env);
    case NotWorking => OnNotWorkingKeeps(w, s, m, now, env);
  }

  /** A due timeout does so too, gives no mapping but to the restart trigger, and brings the server nearer to rest. */
  lemma TimeoutKeeps(w: World, s: nat, now: int, env: Env)
    requires Driving(w, s, now) && Still(env, now) && w.servers[s].state != Uninit && Due(w.servers[s], now)
    ensures Driving(Run(w, s, Timeout, now, env), s, now)
    ensures Evolves(w, Run(w, s, Timeout, now, env), s, w.servers[s].restart)
    ensures Run(w, s, Timeout, now, env).servers[s].state != Uninit && Run(w, s, Timeout, now, env).servers[s].restart.None?
    ensures Rank(Run(w, s, Timeout, now, env).servers[s], now, w.maxPing) < Rank(w.servers[s], now, w.maxPing)
  {
    hide OnPing, OnPingTimeout, OnVersionNegotiation, OnSendAll, OnTimers, OnRestart, OnSetNotWorking, TableOk, PingsOk;
    var srv := w.servers[s];
    OwnServerFits(w, s);
    match srv.state
    case Ping => OnPingKeeps(w, s, now, env);
    case WaitPingResp => OnPingTimeoutKeeps(w, s, now, env);
    case VersionNeg => OnVersionNegotiationKeeps(w, s, now, env);
    case SendAll => OnSendAllKeeps(w, s, now, env);
    case WaitIo => OnTimersKeeps(w, s, now, env);
    case CalcNearest => OnTimersKeeps(w, s, now, env);
    case Restart => OnRestartKeeps(w, s, now, env);
    case Reping => OwnWriteKeeps(w, s, srv.(version := MAX_VERSION, nextTimeout := now, state := Ping), now);
    case SetNotWorking => OnSetNotWorkingKeeps(w, s, now, env);
    case NotWorking => OwnWriteKeeps(w, s, srv.(nextTimeout := now, state := Reping), now);
    case Allocated => OwnWriteKeeps(w, s, srv.(nextTimeout := 0), now);
  }
}
