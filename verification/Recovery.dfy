/** What a server restart, and a response, do to the flows of a server. */
module Recovery {
  import opened Base
  import opened FlowMachine
  import opened FlowRuns
  import opened ServerMachine
  import opened ServerRuns
  import opened Drive
  import opened TimerPass

  // ------------------------------------------------- the restart broadcast

  /** g is what a restart makes of f, by what its send met at some position of the oracle. */
  ghost predicate ResentBy(f: Flow, g: Flow, env: Env, now: int) {
    exists tick: nat :: g == ResentAs(f, env(tick), now)
  }

  /** A flow that claims its mapping, after its overdue renewal was tried once and the claim taken up again. */
  function Reclaimed(f: Flow, io: Io, now: int): (g: Flow)
    ensures g.state == WaitRenew
  {
    if Overdue(f.timeout, now) && io.ok then f.(state := WaitRenew, timeout := now + HalfLeft(f.recvEnd, now) * SECOND)
    else f.(state := WaitRenew)
  }

  /** A visit of the broadcast to a flow that is sent again: the timer check that follows finds nothing to do. */
  lemma VisitResends(w: World, s: nat, id: nat, now: int, env: Env)
    requires WorldOk(w) && s < |w.servers| && Still(env, now) && w.servers[s].state != Uninit
    requires id in w.flows && w.flows[id].server == s
    requires w.servers[s].restart != Some(id) || w.flows[id].state == WaitResp
    ensures var r := Visit(Tell(s, ServerRestarted), w, id, now, env, 0).0;
      id in r.flows && r.flows[id] == ResentAs(w.flows[id], env(w.tick), now)
  {
    hide Drain, TableOk, PingsOk, ResentAs, FlowOk;
    var f := w.flows[id];
    RestartResends(f, CtxOf(w, f), env, w.tick, now);
    ResentWaits(f, env(w.tick), now);
  }

  /** A visit of the broadcast to the trigger, unless it waits: it is claimed, and an overdue timer runs its renewal. */
  lemma VisitReclaims(w: World, s: nat, id: nat, now: int, env: Env) returns (tick: nat)
    requires WorldOk(w) && s < |w.servers| && Still(env, now) && w.servers[s].state != Uninit
    requires id in w.flows && w.flows[id].server == s && w.servers[s].restart == Some(id) && w.flows[id].state != WaitResp
    ensures var r := Visit(Tell(s, ServerRestarted), w, id, now, env, 0).0;
      id in r.flows && r.flows[id] == Reclaimed(w.flows[id], env(tick), now)
  {
    hide Drain, TableOk, PingsOk, FlowOk, HalfLeft;
    var f := w.flows[id];
    assert CtxOf(w, f) == Ctx(true, true);
    var d := Drain(f, ServerRestarted, Ctx(true, true), None, env, w.tick);
    RestartTriggerClaimsSuccess(f, env, w.tick);
    tick := d.tick;
    RenewalRuns(d.flow, Ctx(true, true), env, tick);
    FallBackRuns(OnSendRenew(d.flow.(state := SendRenew), Ctx(true, true), env(tick)).0, Ctx(true, true), env, tick + 1);
  }

  /** What the broadcast makes of one flow. */
  lemma BroadcastFlow(w: World, s: nat, id: nat, now: int, env: Env) returns (tick: nat)
    requires Driving(w, s, now) && Still(env, now) && w.servers[s].state == Restart && id in w.flows
    ensures var f := w.flows[id]; var r := OnRestart(w, s, now, env);
      id in r.flows && r.flows[id] ==
      if f.server != s then f
      else if w.servers[s].restart == Some(id) && f.state != WaitResp then Reclaimed(f, env(tick), now)
      else ResentAs(f, env(tick), now)
  {
    NoTwice(w);
    hide PingsOk, FlowOk, Sweep, Visit, TableOk, ResentAs, Reclaimed;
    tick := SweepVisits(Tell(s, ServerRestarted), w, w.order, now, env, w.servers[s].nextTimeout, w.servers[s].restart, id);
    var w' := w.(tick := tick);
    TickKeeps(w, tick);
    if w.flows[id].server != s {
      VisitStranger(w', s, id, now, env);
    } else if w.servers[s].restart == Some(id) && w.flows[id].state != WaitResp {
      tick := VisitReclaims(w', s, id, now, env);
    } else {
      VisitResends(w', s, id, now, env);
    }
  }

  lemma VisitStranger(w: World, s: nat, id: nat, now: int, env: Env)
    requires id in w.flows && w.flows[id].server != s
    ensures Visit(Tell(s, ServerRestarted), w, id, now, env, 0) == (w, 0)
  {
  }

  /**
   The restart broadcast sends every flow of the server but the trigger again, once, or fails it;
   flows of other servers are as they were, and the trigger is forgotten.
   */
  lemma RestartBroadcast(w: World, s: nat, now: int, env: Env)
    requires Driving(w, s, now) && Still(env, now) && w.servers[s].state == Restart
    ensures var r := OnRestart(w, s, now, env);
      r.servers[s].restart.None? && r.flows.Keys == w.flows.Keys &&
      forall id :: id in w.flows ==>
        (w.flows[id].server != s ==> r.flows[id] == w.flows[id]) &&
        (w.flows[id].server == s && w.servers[s].restart != Some(id) ==> ResentBy(w.flows[id], r.flows[id], env, now))
  {
    hide FlowOk, PingsOk, Sweep, ResentAs, Reclaimed;
    SweepKeeps(Tell(s, ServerRestarted), w, w.order, now, env, w.servers[s].nextTimeout, w.servers[s].restart);
    forall id | id in w.flows
      ensures var f, g := w.flows[id], OnRestart(w, s, now, env).flows[id];
        (f.server != s ==> g == f) && (f.server == s && w.servers[s].restart != Some(id) ==> ResentBy(f, g, env, now))
    {
      var tick := BroadcastFlow(w, s, id, now, env);
    }
  }

  // --------------------------------------------------------- timer passes

  /** A flow whose timer is unset or ahead is not touched by a timer pass. */
  lemma {:induction false} SweepSkips(w: World, ids: seq<nat>, now: int, env: Env, tout: int, id: nat)
    requires WorldOk(w) && Quiet(w, None) && Still(env, now)
    requires forall j :: j in ids ==> j in w.flows
    requires id in w.flows && (w.flows[id].timeout == 0 || w.flows[id].timeout > now)
    ensures id in Sweep(CheckAll, w, ids, now, env, tout).0.flows
    ensures Sweep(CheckAll, w, ids, now, env, tout).0.flows[id] == w.flows[id]
    decreases |ids|
  {
    hide TableOk, PingsOk, FlowOk, HandleFlow;
    SweepKeeps(CheckAll, w, ids, now, env, tout, None);
    if ids != [] {
      var (w', t) := Visit(CheckAll, w, ids[0], now, env, tout);
      VisitKeeps(CheckAll, w, ids[0], now, env, tout, None);
      SweepSkips(w', ids[1..], now, env, t, id);
    }
  }

  // ------------------------------------------------------------ theorems

  /** Message m makes server s enter pss_server_restart. */
  ghost predicate RestartNoticed(w: World, s: nat, m: Msg, now: int)
    requires s < |w.servers|
  {
    m.result != UNSUPP_VERSION && m.result != ADDRESS_MISMATCH &&
    match w.servers[s].state
    case WaitIo => EpochRestart(w.servers[s], m)
    case WaitPingResp => EpochRestart(w.servers[s], m)
    case NotWorking => now < w.servers[s].nextTimeout
    case _ => false
  }

  lemma ResponseEntersRestart(w: World, s: nat, m: Msg, now: int, env: Env)
    requires AtRest(w) && s < |w.servers| && Still(env, now) && m.version <= MAX_VERSION
    requires w.servers[s].state != Uninit
    ensures var r := Run(w, s, IoEvent(m), now, env);
      (RestartNoticed(w, s, m, now) <==> r.servers[s].state == Restart) &&
      (!RestartNoticed(w, s, m, now) ==> r.servers[s].restart.None?) &&
      (RestartNoticed(w, s, m, now) ==> r.servers[s].restart == Target(w, s, m))
  {
    hide TableOk, PingsOk, Target, OnPing, OnReceive, OnPingReceive, OnNotWorking, EpochRestart;
    ResponseKeeps(w, s, m, now, env);
    match w.servers[s].state
    case Ping => OnPingKeeps(w, s, now, env);
    case WaitIo => OnReceiveKeeps(w, s, m, now, env);
    case WaitPingResp => OnPingReceiveKeeps(w, s, m, now, env);
    case NotWorking => OnNotWorkingKeeps(w, s, m, now, env);
    case _ =>
  }

  /** From pss_server_restart the loop goes through two more steps and rests in pss_wait_io. */
  lemma SettleAfterRestart(w: World, s: nat, now: int, env: Env)
    requires Driving(w, s, now) && Still(env, now) && w.servers[s].state == Restart
    ensures Driving(OnRestart(w, s, now, env), s, now)
    ensures Settle(w, s, now, env) == OnTimers(OnRestart(w, s, now, env), s, now, env)
    ensures Settle(w, s, now, env).servers[s].state == WaitIo
  {
    hide OnRestart, OnTimers, TableOk, PingsOk, FlowOk;
    OnRestartKeeps(w, s, now, env);
    var w1 := OnRestart(w, s, now, env);
    assert Run(w, s, Timeout, now, env) == w1;
    OnTimersKeeps(w1, s, now, env);
    assert Run(w1, s, Timeout, now, env) == OnTimers(w1, s, now, env);
    TimeoutKeeps(w, s, now, env);
    TimeoutKeeps(w1, s, now, env);
    assert Settle(OnTimers(w1, s, now, env), s, now, env) == OnTimers(w1, s, now, env);
    assert Settle(w1, s, now, env) == OnTimers(w1, s, now, env);
  }

  /** The flow as the response leaves it, before the restart is broadcast. */
  function AfterResponse(w: World, s: nat, m: Msg, env: Env, id: nat): (f: Flow)
    requires Wired(w) && s < |w.servers| && id in w.flows
  {
    Drain(w.flows[id], Res(m.result), Ctx(true, false), Some(Resolved(w.servers[s], m)), env, w.tick).flow
  }

  lemma ProcessedTarget(w: World, s: nat, m: Msg, env: Env, id: nat)
    requires WorldOk(w) && s < |w.servers| && w.servers[s].state != Uninit && w.servers[s].restart.None?
    requires Target(w, s, m) == Some(id)
    ensures id in Process(w, s, m, env).flows && Process(w, s, m, env).flows[id] == AfterResponse(w, s, m, env, id)
  {
    hide Drain, TableOk, PingsOk, FlowOk, Lookup;
  }

  /** A server that looks at message m: it is in service, or waits out its retry delay. */
  predicate Listens(srv: Server, m: Msg, now: int) {
    m.result != UNSUPP_VERSION && m.result != ADDRESS_MISMATCH &&
    (srv.state == WaitIo || srv.state == WaitPingResp || (srv.state == NotWorking && now < srv.nextTimeout))
  }

  /** Taking a message: the flow it is meant for is answered, and no other moves. */
  lemma TakesMessage(w: World, s: nat, m: Msg, now: int, env: Env)
    requires AtRest(w) && s < |w.servers| && Still(env, now) && m.version <= MAX_VERSION && Listens(w.servers[s], m, now)
    ensures var r, t := Run(w, s, IoEvent(m), now, env), Target(w, s, m);
      r.flows.Keys == w.flows.Keys &&
      (forall j :: j in w.flows && t != Some(j) ==> r.flows[j] == w.flows[j]) &&
      (t.Some? ==> r.flows[t.value] == AfterResponse(w, s, m, env, t.value))
  {
    hide Process, AfterResponse, TableOk, PingsOk, FlowOk, Target, EpochRestart;
    ProcessKeeps(w, s, m, env);
    if Target(w, s, m).Some? {
      ProcessedTarget(w, s, m, env, Target(w, s, m).value);
    }
  }

  /**
   Restart recovery: when a response shows that its server restarted, then at the end of that
   drive every flow of the server but the one answered has been sent again, exactly once since
   the response, or has failed because it could not be.
   */
  lemma RestartRecovery(w: World, s: nat, m: Msg, now: int, env: Env)
    requires AtRest(w) && s < |w.servers| && Still(env, now) && m.version <= MAX_VERSION
    requires RestartNoticed(w, s, m, now)
    ensures var r := Iter(w, s, IoEvent(m), now, env);
      r.servers[s].state == WaitIo && r.servers[s].restart.None? &&
      forall id :: id in w.flows && w.flows[id].server == s && Target(w, s, m) != Some(id) ==>
        id in r.flows && ResentBy(w.flows[id], r.flows[id], env, now)
  {
    hide Run, OnRestart, OnTimers, TableOk, PingsOk, FlowOk, Target, ResentAs, EpochRestart;
    ResponseKeeps(w, s, m, now, env);
    ResponseEntersRestart(w, s, m, now, env);
    TakesMessage(w, s, m, now, env);
    var w1 := Run(w, s, IoEvent(m), now, env);
    SettleAfterRestart(w1, s, now, env);
    RestartBroadcast(w1, s, now, env);
    var w2 := OnRestart(w1, s, now, env);
    SettleKeeps(w1, s, now, env);
    forall id | id in w.flows && w.flows[id].server == s && Target(w, s, m) != Some(id)
      ensures id in Settle(w1, s, now, env).flows && ResentBy(w.flows[id], Settle(w1, s, now, env).flows[id], env, now)
    {
      var tick: nat :| w2.flows[id] == ResentAs(w.flows[id], env(tick), now);
      ResentWaits(w.flows[id], env(tick), now);
      TimersSkip(w2, s, id, now, env);
    }
  }

  // ---------------------------------------------------------- the trigger

  /** A claim after a timer pass: kept, renewed, or given up for a fresh request or failure. */
  function Retimed(g: Flow, k: Luck, now: int): (h: Flow) {
    if !Overdue(g.timeout, now) then g
    else if k.first.ok && HalfLeft(g.recvEnd, now) != 0 then g.(timeout := now + HalfLeft(g.recvEnd, now) * SECOND)
    else if k.second.ok then g.(state := WaitResp, rt := IRT, timeout := now + FRESH)
    else g.(state := Failed, timeout := 0)
  }

  lemma VisitRetimes(w: World, tick: nat, id: nat, now: int, env: Env)
    requires WorldOk(w) && Quiet(w, None) && Still(env, now) && id in w.flows && Alive(w, w.flows[id])
    requires w.flows[id].state == WaitRenew
    ensures var r := Visit(CheckAll, w.(tick := tick), id, now, env, 0).0;
      id in r.flows && r.flows[id] == Retimed(w.flows[id], Luck(env(tick), env(tick + 1)), now)
  {
    hide Drain, TableOk, PingsOk, FlowOk, HalfLeft;
    var f, c := w.flows[id], CtxOf(w, w.flows[id]);
    RenewalRuns(f, c, env, tick);
    FallBackRuns(OnSendRenew(f.(state := SendRenew), c, env(tick)).0, c, env, tick + 1);
  }

  lemma OnTimersFlows(w: World, s: nat, now: int, env: Env)
    requires Wired(w) && s < |w.servers|
    ensures OnTimers(w, s, now, env).flows == Sweep(CheckAll, w, w.order, now, env, 0).0.flows
  {
    hide Sweep, PingsOk;
  }

  lemma SweepRetimes(w: World, id: nat, now: int, env: Env) returns (tick: nat)
    requires WorldOk(w) && Quiet(w, None) && Still(env, now) && id in w.flows && Alive(w, w.flows[id])
    requires w.flows[id].state == WaitRenew
    ensures var r := Sweep(CheckAll, w, w.order, now, env, 0).0;
      id in r.flows && r.flows[id] == Retimed(w.flows[id], Luck(env(tick), env(tick + 1)), now)
  {
    NoTwice(w);
    hide PingsOk, FlowOk, Sweep, Visit, TableOk, Retimed;
    tick := SweepVisits(CheckAll, w, w.order, now, env, 0, None, id);
    VisitRetimes(w, tick, id, now, env);
  }

  lemma TimersRetime(w: World, s: nat, id: nat, now: int, env: Env) returns (tick: nat)
    requires Driving(w, s, now) && Still(env, now) && w.servers[s].restart.None? && id in w.flows
    requires Alive(w, w.flows[id]) && w.flows[id].state == WaitRenew
    ensures var r := OnTimers(w, s, now, env);
      id in r.flows && r.flows[id] == Retimed(w.flows[id], Luck(env(tick), env(tick + 1)), now)
  {
    hide PingsOk, FlowOk, Sweep, TableOk, Retimed, OnTimers;
    OnTimersFlows(w, s, now, env);
    tick := SweepRetimes(w, id, now, env);
  }

  /** The flow that the drive leaves the trigger as, from g as the response left it. */
  function TriggerEnds(g: Flow, io: Io, k: Luck, now: int): (h: Flow) {
    if g.state == WaitResp then ResentAs(g, io, now) else Retimed(Reclaimed(g, io, now), k, now)
  }

  /** The course of the trigger through the rest of the drive, by what its sends meet. */
  lemma TriggerCourse(w: World, s: nat, m: Msg, now: int, env: Env, id: nat) returns (t1: nat, t2: nat)
    requires AtRest(w) && s < |w.servers| && Still(env, now) && m.version <= MAX_VERSION
    requires RestartNoticed(w, s, m, now) && Target(w, s, m) == Some(id)
    ensures var r := Iter(w, s, IoEvent(m), now, env);
      id in r.flows && r.flows[id] ==
      TriggerEnds(AfterResponse(w, s, m, env, id), env(t1), Luck(env(t2), env(t2 + 1)), now)
  {
    hide Run, OnRestart, OnTimers, TableOk, PingsOk, FlowOk, Target, AfterResponse, ResentAs, Retimed, Reclaimed, EpochRestart;
    ResponseKeeps(w, s, m, now, env);
    ResponseEntersRestart(w, s, m, now, env);
    TakesMessage(w, s, m, now, env);
    var w1 := Run(w, s, IoEvent(m), now, env);
    SettleAfterRestart(w1, s, now, env);
    t1, t2 := SettledCourse(w1, s, now, env, id);
  }

  lemma SettledCourse(w: World, s: nat, now: int, env: Env, id: nat) returns (t1: nat, t2: nat)
    requires Driving(w, s, now) && Still(env, now) && w.servers[s].state == Restart
    requires id in w.flows && w.flows[id].server == s && w.servers[s].restart == Some(id)
    requires Driving(OnRestart(w, s, now, env), s, now)
    ensures var r := OnTimers(OnRestart(w, s, now, env), s, now, env);
      id in r.flows && r.flows[id] == TriggerEnds(w.flows[id], env(t1), Luck(env(t2), env(t2 + 1)), now)
  {
    hide OnRestart, OnTimers, TableOk, PingsOk, FlowOk, ResentAs, Retimed, Reclaimed;
    t1 := BroadcastFlow(w, s, id, now, env);
    TriggerStaysAlive(w, s, id, now, env);
    var w1 := OnRestart(w, s, now, env);
    t2 := 0;
    if w.flows[id].state == WaitResp {
      ResentWaits(w.flows[id], env(t1), now);
      TimersSkip(w1, s, id, now, env);
    } else {
      t2 := TimersRetime(w1, s, id, now, env);
    }
  }

  lemma TriggerStaysAlive(w: World, s: nat, id: nat, now: int, env: Env)
    requires Driving(w, s, now) && Still(env, now) && w.servers[s].state == Restart && id in w.flows && w.flows[id].server == s
    ensures var r := OnRestart(w, s, now, env); r.servers[s].restart.None? && id in r.flows && Alive(r, r.flows[id])
  {
    hide OnRestart, TableOk, PingsOk, FlowOk;
    OnRestartKeeps(w, s, now, env);
    TimeoutKeeps(w, s, now, env);
    assert Run(w, s, Timeout, now, env) == OnRestart(w, s, now, env);
    assert FlowMoves(w.flows[id], OnRestart(w, s, now, env).flows[id], w.servers[s].restart);
  }

  // ------------------------------------- its fate, told before the drive

  /** The drive leaves flow id in the renewal state: it is reported as successful. */
  ghost predicate Claimed(w: World, s: nat, m: Msg, now: int, env: Env, id: nat)
    requires AtRest(w) && s < |w.servers| && Still(env, now) && m.version <= MAX_VERSION
  {
    var r := Iter(w, s, IoEvent(m), now, env); id in r.flows && r.flows[id].state == WaitRenew
  }

  /** Whatever the sends meet, f will be claimed if m exposes a restart. */
  predicate SurelyClaimed(f: Flow, m: Msg, now: int) {
    !RenewsAtOnce(f, m) && var g := AnsweredAs(f, m, now); g.state != WaitResp && !Overdue(g.timeout, now)
  }

  /** With some luck, f will be claimed. */
  predicate MayBeClaimed(f: Flow, m: Msg, now: int) {
    RenewsAtOnce(f, m) ||
    var g := AnsweredAs(f, m, now);
    g.state != WaitResp && (!Overdue(g.timeout, now) || HalfLeft(g.recvEnd, now) != 0)
  }

  /** AfterResponse in closed form. */
  lemma ResponseTold(w: World, s: nat, m: Msg, env: Env, id: nat, now: int)
    requires Wired(w) && s < |w.servers| && id in w.flows && Frozen(env, now)
    ensures var f, m' := w.flows[id], Resolved(w.servers[s], m);
      AfterResponse(w, s, m, env, id) ==
      if RenewsAtOnce(f, m) then AskedToPause(f, m', env(w.tick), env(w.tick + 1), now) else AnsweredAs(f, m', now)
  {
    hide Drain, TableOk, PingsOk, AskedToPause, AnsweredAs;
    var f, m' := w.flows[id], Resolved(w.servers[s], m);
    if RenewsAtOnce(f, m) {
      PauseRenews(f, m', Ctx(true, false), env, w.tick, now);
    } else {
      ResponseAnswers(f, m', Ctx(true, false), env, w.tick, now);
    }
  }

  /** Only the address granted depends on the server's announce. */
  lemma ResolvedAlike(f: Flow, srv: Server, m: Msg, now: int)
    ensures var g, g' := AnsweredAs(f, m, now), AnsweredAs(f, Resolved(srv, m), now);
      g'.state == g.state && g'.timeout == g.timeout && g'.recvEnd == g.recvEnd && g'.retry == g.retry
  {
  }

  /** One drive: the trigger is claimed, or sent again or failed; claimed as the response left it if that is sure. */
  lemma TriggerOutcome(w: World, s: nat, m: Msg, now: int, env: Env, id: nat)
    requires AtRest(w) && s < |w.servers| && Still(env, now) && m.version <= MAX_VERSION
    requires RestartNoticed(w, s, m, now) && Target(w, s, m) == Some(id)
    ensures var f := w.flows[id]; var r := Iter(w, s, IoEvent(m), now, env);
      id in r.flows && (Claimed(w, s, m, now, env, id) || SentOrFailed(r.flows[id], now)) &&
      (Claimed(w, s, m, now, env, id) ==> MayBeClaimed(f, m, now)) &&
      (SurelyClaimed(f, m, now) ==>
         r.flows[id] == AnsweredAs(f, Resolved(w.servers[s], m), now).(state := WaitRenew))
  {
    hide Iter, TableOk, PingsOk, FlowOk, Target, RestartNoticed, AfterResponse, AnsweredAs, Resolved, HalfLeft;
    var t1, t2 := TriggerCourse(w, s, m, now, env, id);
    ResponseTold(w, s, m, env, id, now);
    ResolvedAlike(w.flows[id], w.servers[s], m, now);
    var g := AfterResponse(w, s, m, env, id);
    if g.state == WaitResp {
      TriggerFlowOk(w, s, m, now, env, id);
      ResentWaits(g, env(t1), now);
    }
  }

  lemma TriggerFlowOk(w: World, s: nat, m: Msg, now: int, env: Env, id: nat)
    requires AtRest(w) && s < |w.servers| && Still(env, now) && id in w.flows
    ensures FlowOk(AfterResponse(w, s, m, env, id))
  {
    hide Drain, TableOk, PingsOk, FlowOk;
    var f := w.flows[id];
    assert FlowOk(f) && FeedOk(f, Res(m.result));
    DrainKeepsFlowOk(f, Res(m.result), Ctx(true, false), Some(Resolved(w.servers[s], m)), env, w.tick);
  }

  /**
   The fate of the flow that exposed a restart, told from before the drive: it is claimed whatever
   its sends meet exactly when it is surely claimed, and for some outcome of them exactly when it
   may be.
   */
  lemma TriggerFate(w: World, s: nat, m: Msg, now: int, id: nat)
    requires AtRest(w) && s < |w.servers| && now > 0 && m.version <= MAX_VERSION
    requires RestartNoticed(w, s, m, now) && Target(w, s, m) == Some(id)
    ensures (forall env: Env | Still(env, now) :: Claimed(w, s, m, now, env, id)) <==> SurelyClaimed(w.flows[id], m, now)
    ensures (exists env: Env | Still(env, now) :: Claimed(w, s, m, now, env, id)) <==> MayBeClaimed(w.flows[id], m, now)
  {
    hide Claimed, TableOk, PingsOk, FlowOk, Target, RestartNoticed, SurelyClaimed, MayBeClaimed;
    forall env: Env | Still(env, now)
      ensures SurelyClaimed(w.flows[id], m, now) ==> Claimed(w, s, m, now, env, id)
      ensures Claimed(w, s, m, now, env, id) ==> MayBeClaimed(w.flows[id], m, now)
    {
      SurelyMeans(w, s, m, now, env, id);
    }
    if !SurelyClaimed(w.flows[id], m, now) {
      var env := NotClaimed(w, s, m, now, id);
    }
    if MayBeClaimed(w.flows[id], m, now) {
      var env := LuckilyClaimed(w, s, m, now, id);
    }
  }

  lemma SurelyMeans(w: World, s: nat, m: Msg, now: int, env: Env, id: nat)
    requires AtRest(w) && s < |w.servers| && Still(env, now) && m.version <= MAX_VERSION
    requires RestartNoticed(w, s, m, now) && Target(w, s, m) == Some(id)
    ensures SurelyClaimed(w.flows[id], m, now) ==> Claimed(w, s, m, now, env, id)
    ensures Claimed(w, s, m, now, env, id) ==> MayBeClaimed(w.flows[id], m, now)
  {
    hide Iter, TableOk, PingsOk, FlowOk, Target, RestartNoticed, AnsweredAs;
    TriggerOutcome(w, s, m, now, env, id);
  }

  /** Sends that all fail, or of which only the first does, keep any other trigger from being claimed. */
  lemma NotClaimed(w: World, s: nat, m: Msg, now: int, id: nat) returns (env: Env)
    requires AtRest(w) && s < |w.servers| && now > 0 && m.version <= MAX_VERSION
    requires RestartNoticed(w, s, m, now) && Target(w, s, m) == Some(id) && !SurelyClaimed(w.flows[id], m, now)
    ensures Still(env, now) && !Claimed(w, s, m, now, env, id)
  {
    hide Iter, TableOk, PingsOk, FlowOk, Target, RestartNoticed, AfterResponse, AnsweredAs, Resolved, HalfLeft;
    var pause := RenewsAtOnce(w.flows[id], m);
    env := t => Io(pause && t != w.tick, 0, now);
    var t1, t2 := TriggerCourse(w, s, m, now, env, id);
    ResponseTold(w, s, m, env, id, now);
    ResolvedAlike(w.flows[id], w.servers[s], m, now);
  }

  /** Sends that all go out, or all fail if the flow renews at once, let it be claimed. */
  lemma LuckilyClaimed(w: World, s: nat, m: Msg, now: int, id: nat) returns (env: Env)
    requires AtRest(w) && s < |w.servers| && now > 0 && m.version <= MAX_VERSION
    requires RestartNoticed(w, s, m, now) && Target(w, s, m) == Some(id) && MayBeClaimed(w.flows[id], m, now)
    ensures Still(env, now) && Claimed(w, s, m, now, env, id)
  {
    hide Iter, TableOk, PingsOk, FlowOk, Target, RestartNoticed, AfterResponse, AnsweredAs, Resolved, HalfLeft;
    var pause := RenewsAtOnce(w.flows[id], m);
    env := t => Io(!pause, 0, now);
    var t1, t2 := TriggerCourse(w, s, m, now, env, id);
    ResponseTold(w, s, m, env, id, now);
    ResolvedAlike(w.flows[id], w.servers[s], m, now);
  }

  lemma TriggerEndsMapping(g: Flow, io: Io, k: Luck, now: int)
    ensures SameMapping(g, TriggerEnds(g, io, k, now)) && TriggerEnds(g, io, k, now).kd == g.kd
  {
    hide PcpRt, HalfLeft;
  }

  /** The trigger's mapping is the one it had, or the one a success it awaited has just granted. */
  lemma TriggerKeepsMapping(w: World, s: nat, m: Msg, now: int, env: Env, id: nat)
    requires AtRest(w) && s < |w.servers| && Still(env, now) && m.version <= MAX_VERSION
    requires RestartNoticed(w, s, m, now) && Target(w, s, m) == Some(id)
    ensures var f := w.flows[id]; var r := Iter(w, s, IoEvent(m), now, env);
      id in r.flows &&
      (SameMapping(f, r.flows[id]) ||
       (m.result == 0 && (f.state == WaitResp || f.state == WaitRenew) &&
        GrantedBy(r.flows[id], Resolved(w.servers[s], m))))
  {
    hide Iter, TableOk, PingsOk, FlowOk, Target, Drain, RestartNoticed, TriggerEnds;
    var t1, t2 := TriggerCourse(w, s, m, now, env, id);
    TriggerEndsMapping(AfterResponse(w, s, m, env, id), env(t1), Luck(env(t2), env(t2 + 1)), now);
    ResponseMapping(w.flows[id], Resolved(w.servers[s], m), Ctx(true, false), env, w.tick);
  }

  /** A flow that awaits a response and is refused for good is reported as successful if the refusal exposes a restart. */
  lemma RefusalClaimsSuccess(w: World, s: nat, m: Msg, now: int, env: Env, id: nat)
    requires AtRest(w) && s < |w.servers| && Still(env, now) && m.version <= MAX_VERSION
    requires RestartNoticed(w, s, m, now) && Target(w, s, m) == Some(id)
    requires LongLifeError(m.result) && (w.flows[id].state == WaitResp || w.flows[id].state == WaitRenew)
    ensures var r := Iter(w, s, IoEvent(m), now, env);
      id in r.flows && r.flows[id] == w.flows[id].(state := WaitRenew, timeout := 0, result := m.result)
  {
    hide Iter, TableOk, PingsOk, FlowOk, Target, RestartNoticed, HalfLeft;
    TriggerOutcome(w, s, m, now, env, id);
  }

  lemma TimersSkip(w: World, s: nat, id: nat, now: int, env: Env)
    requires Driving(w, s, now) && Still(env, now) && w.servers[s].restart.None?
    requires id in w.flows && SentOrFailed(w.flows[id], now)
    ensures id in OnTimers(w, s, now, env).flows && OnTimers(w, s, now, env).flows[id] == w.flows[id]
  {
    hide PingsOk, FlowOk;
    SweepSkips(w, w.order, now, env, 0, id);
  }

  /**
   What a response that shows no restart may do for the flow it is meant for: leave its claim as it
   was, or grant it the mapping the response carries, if the flow awaited one and the result is 0.
   */
  lemma TargetGrant(w: World, s: nat, m: Msg, now: int, env: Env, id: nat)
    requires AtRest(w) && s < |w.servers| && Still(env, now) && m.version <= MAX_VERSION
    requires Target(w, s, m) == Some(id) && !RestartNoticed(w, s, m, now)
    ensures var f := w.flows[id]; var r := Iter(w, s, IoEvent(m), now, env);
      id in r.flows &&
      (KeepsGrant(f, r.flows[id]) ||
       (m.result == 0 && (f.state == WaitResp || f.state == WaitRenew) &&
        GrantedBy(r.flows[id], Resolved(w.servers[s], m))))
  {
    hide Run, TableOk, PingsOk, FlowOk, Target, Settle;
    if w.servers[s].state != Uninit {
      ResponseKeeps(w, s, m, now, env);
      ResponseEntersRestart(w, s, m, now, env);
      var w1 := Run(w, s, IoEvent(m), now, env);
      SettleKeeps(w1, s, now, env);
      ResponseStep(w, s, m, now, env, id);
      assert FlowMoves(w1.flows[id], Settle(w1, s, now, env).flows[id], None);
    }
  }

  /** The step that takes the response, before the loop runs on. */
  lemma ResponseStep(w: World, s: nat, m: Msg, now: int, env: Env, id: nat)
    requires AtRest(w) && s < |w.servers| && Still(env, now) && m.version <= MAX_VERSION
    requires Target(w, s, m) == Some(id) && w.servers[s].state != Uninit
    ensures var f := w.flows[id]; var r := Run(w, s, IoEvent(m), now, env);
      id in r.flows &&
      (KeepsGrant(f, r.flows[id]) ||
       (m.result == 0 && (f.state == WaitResp || f.state == WaitRenew) &&
        GrantedBy(r.flows[id], Resolved(w.servers[s], m))))
  {
    var f := w.flows[id];
    if w.servers[s].state == Ping {
      hide Run, TableOk, PingsOk, FlowOk, Target;
      PingStep(w, s, m, now, env);
      assert FlowMoves(f, Run(w, s, IoEvent(m), now, env).flows[id], None);
    } else {
      hide Run, Drain, TableOk, PingsOk, FlowOk, Target;
      RunTarget(w, s, m, now, env, id);
      ResponseGrant(f, Resolved(w.servers[s], m), Ctx(true, false), env, w.tick);
    }
  }

  lemma PingStep(w: World, s: nat, m: Msg, now: int, env: Env)
    requires AtRest(w) && s < |w.servers| && Still(env, now) && w.servers[s].state == Ping
    ensures Evolves(w, Run(w, s, IoEvent(m), now, env), s, None)
  {
    hide OnPing, TableOk, PingsOk, FlowOk, Evolves;
    OnPingKeeps(w, s, now, env);
  }

  /** The step leaves the flow as it was, or as the response makes it. */
  lemma RunTarget(w: World, s: nat, m: Msg, now: int, env: Env, id: nat)
    requires AtRest(w) && s < |w.servers| && Still(env, now) && m.version <= MAX_VERSION
    requires Target(w, s, m) == Some(id) && w.servers[s].state != Uninit && w.servers[s].state != Ping
    ensures var r := Run(w, s, IoEvent(m), now, env);
      id in r.flows && (r.flows[id] == w.flows[id] || r.flows[id] == AfterResponse(w, s, m, env, id))
  {
    hide Process, AfterResponse, TableOk, PingsOk, FlowOk, Target, EpochRestart;
    ProcessedTarget(w, s, m, env, id);
  }
}
