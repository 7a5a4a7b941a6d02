/** What an answer does to its server and to the server's flows, over the whole drive that takes it. */
module Answers {
  import opened Base
  import opened FlowKey
  import opened FlowMachine
  import opened FlowRuns
  import opened Epoch
  import opened ServerMachine
  import opened ServerRuns
  import opened Drive
  import opened TimerPass
  import opened Recovery

  // -------------------------------------------- when a restart is noticed

  /** A server in service. */
  predicate InService(srv: Server) {
    srv.state == WaitIo || srv.state == WaitPingResp
  }

  predicate Plain(m: Msg) {
    m.result != 1 && m.result != 12
  }

  /**
   With c seconds gone here and e seconds on the server's clock since its baseline, a restart is
   noticed exactly when the two are inconsistent by the rule of section 8.5 of RFC 6887.
   */
  lemma NoticedByClocks(w: World, s: nat, m: Msg, now: int, c: int, e: int)
    requires s < |w.servers| && InService(w.servers[s]) && Plain(m) && w.servers[s].epoch != 0xffff_ffff
    requires m.receivedTime == w.servers[s].cepoch + c && m.epoch == w.servers[s].epoch + e
    requires 0 <= c < TWO32 - 2 && 0 <= e < TWO32 - 2
    ensures RestartNoticed(w, s, m, now) <==> c + 2 < e - e / 16 || e + 2 < c - c / 16
  {
    hide RestartSeen;
    WrapSmall(c);
    WrapSmall(e);
    EpochTestIsExact(c, e);
  }

  /** A server whose clock went back by up to 2^31 seconds is noticed while under 2^30 seconds have gone here. */
  lemma StepBackNoticed(w: World, s: nat, m: Msg, now: int, c: int, back: int)
    requires s < |w.servers| && InService(w.servers[s]) && Plain(m) && w.servers[s].epoch != 0xffff_ffff
    requires m.receivedTime == w.servers[s].cepoch + c && m.epoch == w.servers[s].epoch - back
    requires 0 <= c < 0x4000_0000 && 1 <= back <= 0x8000_0000
    ensures RestartNoticed(w, s, m, now)
  {
    hide RestartSeen;
    BackwardStepIsSeen(c, back);
  }

  /** The first message of a server is its baseline and shows no restart. */
  lemma FirstMessageTrusted(w: World, s: nat, m: Msg, now: int)
    requires s < |w.servers| && InService(w.servers[s]) && w.servers[s].epoch == 0xffff_ffff
    ensures !RestartNoticed(w, s, m, now)
  {
  }

  // ----------------------------------------------- the rest of the drive

  /** From pss_wait_io_calc_nearest_timeout one timer pass is left. */
  lemma SettleAfterCalc(w: World, s: nat, now: int, env: Env)
    requires Driving(w, s, now) && Still(env, now) && w.servers[s].state == CalcNearest
    ensures Settle(w, s, now, env) == OnTimers(w, s, now, env)
  {
    hide OnTimers, TableOk, PingsOk, FlowOk;
    OnTimersKeeps(w, s, now, env);
    var w1 := OnTimers(w, s, now, env);
    assert Run(w, s, Timeout, now, env) == w1;
    TimeoutKeeps(w, s, now, env);
    assert Settle(w1, s, now, env) == w1;
  }

  /** From pss_send_all_msgs the broadcast comes first. */
  lemma SettleAfterSendAll(w: World, s: nat, now: int, env: Env)
    requires Driving(w, s, now) && Still(env, now) && w.servers[s].state == SendAll
    ensures Driving(OnSendAll(w, s, now, env), s, now) && OnSendAll(w, s, now, env).servers[s].restart.None?
    ensures Settle(w, s, now, env) == OnTimers(OnSendAll(w, s, now, env), s, now, env)
  {
    hide OnSendAll, OnTimers, TableOk, PingsOk, FlowOk;
    OnSendAllKeeps(w, s, now, env);
    var w1 := OnSendAll(w, s, now, env);
    assert Run(w, s, Timeout, now, env) == w1;
    TimeoutKeeps(w, s, now, env);
    SettleAfterCalc(w1, s, now, env);
  }

  /** A flow whose timer is unset or ahead is left alone by the timer pass. */
  lemma TimersLeave(w: World, s: nat, id: nat, now: int, env: Env)
    requires Driving(w, s, now) && Still(env, now) && w.servers[s].restart.None?
    requires id in w.flows && !Overdue(w.flows[id].timeout, now)
    ensures id in OnTimers(w, s, now, env).flows && OnTimers(w, s, now, env).flows[id] == w.flows[id]
  {
    hide PingsOk, FlowOk;
    SweepSkips(w, w.order, now, env, 0, id);
  }

  // ------------------------------------- the server has been initialised

  /** A visit of the broadcast, in any state that its timer check leaves alone. */
  lemma VisitInitializes(w: World, s: nat, id: nat, now: int, env: Env)
    requires WorldOk(w) && Quiet(w, None) && s < |w.servers| && Still(env, now) && w.servers[s].state != Uninit
    requires id in w.flows && w.flows[id].server == s && (Unsent(w.flows[id].state) || !Overdue(w.flows[id].timeout, now))
    ensures var r := Visit(Tell(s, ServerInitialized), w, id, now, env, 0).0;
      id in r.flows && r.flows[id] == if Unsent(w.flows[id].state) then ResentAs(w.flows[id], env(w.tick), now) else w.flows[id]
  {
    hide Drain, TableOk, PingsOk, ResentAs, FlowOk;
    var f := w.flows[id];
    InitializedSends(f, CtxOf(w, f), env, w.tick, now);
    ResentWaits(f, env(w.tick), now);
  }

  lemma VisitOther(w: World, s: nat, ev: FlowEvent, id: nat, now: int, env: Env)
    requires id in w.flows && w.flows[id].server != s && !ev.Res?
    ensures Visit(Tell(s, ev), w, id, now, env, 0) == (w, 0)
  {
  }

  /**
   The broadcast of handle_send_all_msgs: flows of the server that were not answered are sent, once;
   others with a timer unset or ahead, and all flows of other servers, stay as they were.
   */
  lemma InitBroadcast(w: World, s: nat, id: nat, now: int, env: Env)
    requires Driving(w, s, now) && Still(env, now) && w.servers[s].state == SendAll && id in w.flows
    ensures var f, r := w.flows[id], OnSendAll(w, s, now, env);
      id in r.flows &&
      (f.server != s ==> r.flows[id] == f) &&
      (f.server == s && Unsent(f.state) ==> ResentBy(f, r.flows[id], env, now)) &&
      (f.server == s && !Unsent(f.state) && !Overdue(f.timeout, now) ==> r.flows[id] == f)
  {
    NoTwice(w);
    hide PingsOk, FlowOk, Sweep, Visit, TableOk, ResentAs, Overdue;
    var f := w.flows[id];
    var tick := SweepVisits(Tell(s, ServerInitialized), w, w.order, now, env, w.servers[s].nextTimeout, None, id);
    TickKeeps(w, tick);
    var w' := w.(tick := tick);
    if f.server != s {
      VisitOther(w', s, ServerInitialized, id, now, env);
    } else if Unsent(f.state) || !Overdue(f.timeout, now) {
      VisitInitializes(w', s, id, now, env);
      assert Unsent(f.state) ==> ResentBy(f, OnSendAll(w, s, now, env).flows[id], env, now);
    }
  }

  /** The same after the timer pass that follows. */
  lemma InitSettles(w: World, s: nat, id: nat, now: int, env: Env)
    requires Driving(w, s, now) && Still(env, now) && w.servers[s].state == SendAll && id in w.flows && w.flows[id].server == s
    ensures var f, r := w.flows[id], Settle(w, s, now, env);
      id in r.flows &&
      (Unsent(f.state) ==> ResentBy(f, r.flows[id], env, now)) &&
      (!Unsent(f.state) && !Overdue(f.timeout, now) ==> r.flows[id] == f)
  {
    hide OnSendAll, OnTimers, Settle, TableOk, PingsOk, FlowOk, ResentAs;
    SettleAfterSendAll(w, s, now, env);
    SettleKeeps(w, s, now, env);
    InitBroadcast(w, s, id, now, env);
    var f, w1 := w.flows[id], OnSendAll(w, s, now, env);
    if Unsent(f.state) {
      var tick: nat :| w1.flows[id] == ResentAs(f, env(tick), now);
      ResentWaits(f, env(tick), now);
      TimersLeave(w1, s, id, now, env);
    } else if !Overdue(f.timeout, now) {
      TimersLeave(w1, s, id, now, env);
    }
  }

  /** The flow as the message leaves it. */
  function Taken(w: World, s: nat, m: Msg, env: Env, id: nat): (f: Flow)
    requires Wired(w) && s < |w.servers| && id in w.flows
  {
    if Target(w, s, m) == Some(id) then AfterResponse(w, s, m, env, id) else w.flows[id]
  }

  lemma RunTaken(w: World, s: nat, m: Msg, now: int, env: Env, id: nat)
    requires AtRest(w) && s < |w.servers| && Still(env, now) && m.version <= MAX_VERSION && Listens(w.servers[s], m, now)
    requires id in w.flows
    ensures var r := Run(w, s, IoEvent(m), now, env);
      id in r.flows && r.flows[id] == Taken(w, s, m, env, id) && r.flows[id].server == w.flows[id].server
  {
    hide Run, TableOk, PingsOk, FlowOk, Target;
    TakesMessage(w, s, m, now, env);
  }

  /**
   When a ping is answered and no restart shows, then at the end of that drive the server is in
   service, every flow of it that was not answered has been sent, exactly once, or has failed
   because its send failed or its resends were used up, and every other one with a timer unset or
   ahead is as the answer left it.
   */
  lemma PingAnswered(w: World, s: nat, m: Msg, now: int, env: Env)
    requires AtRest(w) && s < |w.servers| && Still(env, now) && m.version <= MAX_VERSION && Plain(m)
    requires w.servers[s].state == WaitPingResp && !RestartNoticed(w, s, m, now)
    ensures var r := Iter(w, s, IoEvent(m), now, env);
      r.servers[s].state == WaitIo &&
      forall id :: id in w.flows && w.flows[id].server == s ==>
        var f := Taken(w, s, m, env, id);
        id in r.flows && (Unsent(f.state) ==> ResentBy(f, r.flows[id], env, now)) &&
        (!Unsent(f.state) && !Overdue(f.timeout, now) ==> r.flows[id] == f)
  {
    AnswerTaken(w, s, m, now, env);
    hide Run, Settle, TableOk, PingsOk, FlowOk, Target, RestartNoticed, Taken, ResentBy, Overdue, Unsent;
    var w1 := Run(w, s, IoEvent(m), now, env);
    ResponseKeeps(w, s, m, now, env);
    SettleAfterSendAll(w1, s, now, env);
    OnTimersState(OnSendAll(w1, s, now, env), s, now, env);
    forall id | id in w.flows && w.flows[id].server == s
      ensures var f, r := Taken(w, s, m, env, id), Settle(w1, s, now, env);
        id in r.flows && (Unsent(f.state) ==> ResentBy(f, r.flows[id], env, now)) &&
        (!Unsent(f.state) && !Overdue(f.timeout, now) ==> r.flows[id] == f)
    {
      RunTaken(w, s, m, now, env, id);
      InitSettles(w1, s, id, now, env);
    }
  }

  lemma OnTimersState(w: World, s: nat, now: int, env: Env)
    requires Wired(w) && s < |w.servers|
    ensures var r := OnTimers(w, s, now, env).servers[s]; r == w.servers[s].(state := WaitIo, nextTimeout := r.nextTimeout)
  {
    hide Sweep, TableOk, PingsOk;
  }

  /** Where a plain answer that shows no restart takes its server. */
  lemma AnswerTaken(w: World, s: nat, m: Msg, now: int, env: Env)
    requires AtRest(w) && s < |w.servers| && Still(env, now) && m.version <= MAX_VERSION && Plain(m)
    requires InService(w.servers[s]) && !RestartNoticed(w, s, m, now)
    ensures Run(w, s, IoEvent(m), now, env).servers[s].state == if w.servers[s].state == WaitIo then CalcNearest else SendAll
  {
    hide Process, TableOk, PingsOk, FlowOk, EpochRestart;
    ProcessKeeps(w, s, m, env);
    EpochIgnoresAddress(w.servers[s], Process(w, s, m, env).servers[s].natpmpExt, m);
  }

  /** In service, an answer that shows no restart leaves every flow with a timer unset or ahead as the answer made it. */
  lemma AnswerInService(w: World, s: nat, m: Msg, now: int, env: Env)
    requires AtRest(w) && s < |w.servers| && Still(env, now) && m.version <= MAX_VERSION && Plain(m)
    requires w.servers[s].state == WaitIo && !RestartNoticed(w, s, m, now)
    ensures var r := Iter(w, s, IoEvent(m), now, env);
      r.servers[s].state == WaitIo &&
      forall id :: id in w.flows ==>
        id in r.flows &&
        (!Overdue(Taken(w, s, m, env, id).timeout, now) ==> r.flows[id] == Taken(w, s, m, env, id))
  {
    AnswerTaken(w, s, m, now, env);
    hide Run, Settle, TableOk, PingsOk, FlowOk, Target, RestartNoticed, Overdue, Taken;
    var w1 := Run(w, s, IoEvent(m), now, env);
    ResponseKeeps(w, s, m, now, env);
    SettleAfterCalc(w1, s, now, env);
    OnTimersState(w1, s, now, env);
    SettleKeeps(w1, s, now, env);
    forall id | id in w.flows
      ensures id in Settle(w1, s, now, env).flows
      ensures !Overdue(Taken(w, s, m, env, id).timeout, now) ==>
        Settle(w1, s, now, env).flows[id] == Taken(w, s, m, env, id)
    {
      RunTaken(w, s, m, now, env, id);
      if !Overdue(w1.flows[id].timeout, now) {
        TimersLeave(w1, s, id, now, env);
      }
    }
  }

  // ------------------------------------------------- baseline and address

  /** What a message makes of the server's own memory of its peer. */
  predicate Remembers(a: Server, b: Server, m: Msg, moved: bool) {
    && b.epoch == (if moved then m.epoch else a.epoch) && b.cepoch == (if moved then m.receivedTime else a.cepoch)
    && b.natpmpExt == if m.version == 0 && m.kd.op == OP_ANNOUNCE then m.ext.ip[12..] else a.natpmpExt
  }

  lemma ProcessRemembers(w: World, s: nat, m: Msg, env: Env)
    requires Wired(w) && s < |w.servers|
    ensures Process(w, s, m, env).servers[s] ==
            w.servers[s].(natpmpExt := if m.version == 0 && m.kd.op == OP_ANNOUNCE then m.ext.ip[12..] else w.servers[s].natpmpExt)
  {
    hide Drain, TableOk, PingsOk, Lookup;
  }

  lemma RunRemembers(w: World, s: nat, m: Msg, now: int, env: Env)
    requires AtRest(w) && s < |w.servers| && Still(env, now) && m.version <= MAX_VERSION && Listens(w.servers[s], m, now)
    ensures var srv := w.servers[s];
      Remembers(srv, Run(w, s, IoEvent(m), now, env).servers[s], m, srv.epoch == 0xffff_ffff || RestartNoticed(w, s, m, now))
  {
    hide Process, TableOk, PingsOk, FlowOk, Target, RestartSeen;
    ProcessRemembers(w, s, m, env);
  }

  lemma SettleRemembers(w: World, s: nat, now: int, env: Env)
    requires Driving(w, s, now) && Still(env, now) && w.servers[s].state in {CalcNearest, SendAll, Restart}
    ensures var a, b := w.servers[s], Settle(w, s, now, env).servers[s];
      b.epoch == a.epoch && b.cepoch == a.cepoch && b.natpmpExt == a.natpmpExt
  {
    hide Settle, Sweep, TableOk, PingsOk, FlowOk;
    match w.servers[s].state
    case CalcNearest => SettleAfterCalc(w, s, now, env);
    case SendAll => SettleAfterSendAll(w, s, now, env);
    case Restart => SettleAfterRestart(w, s, now, env);
  }

  /**
   Over the whole drive the epoch baseline moves to the message exactly if it is the server's first,
   shows a restart, or reaches a server that was given up; the NAT-PMP address is that of the last announce.
   */
  lemma BaselineMoves(w: World, s: nat, m: Msg, now: int, env: Env)
    requires AtRest(w) && s < |w.servers| && Still(env, now) && m.version <= MAX_VERSION && Listens(w.servers[s], m, now)
    ensures var srv := w.servers[s];
      Remembers(srv, Iter(w, s, IoEvent(m), now, env).servers[s], m, srv.epoch == 0xffff_ffff || RestartNoticed(w, s, m, now))
  {
    hide Run, Settle, TableOk, PingsOk, FlowOk, Target;
    RunRemembers(w, s, m, now, env);
    ResponseKeeps(w, s, m, now, env);
    ResponseEntersRestart(w, s, m, now, env);
    if !RestartNoticed(w, s, m, now) {
      AnswerTaken(w, s, m, now, env);
    }
    SettleRemembers(Run(w, s, IoEvent(m), now, env), s, now, env);
  }
}
