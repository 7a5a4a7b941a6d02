/** How a server is pinged, what a refused version leads to, and what giving a server up does to its flows. */
module Failures {
  import opened Base
  import opened FlowKey
  import opened FlowMachine
  import opened FlowRuns
  import opened ServerMachine
  import opened ServerRuns
  import opened Drive
  import opened TimerPass
  import opened Answers

  // ------------------------------------------------ giving a server up

  /** g is what fev_failed makes of f, by what its send met at some position of the oracle. */
  ghost predicate FailedBy(f: Flow, g: Flow, env: Env, now: int) {
    exists tick: nat :: g == FailedAs(f, env(tick), now)
  }

  lemma VisitFails(w: World, s: nat, id: nat, now: int, env: Env)
    requires WorldOk(w) && Quiet(w, None) && s < |w.servers| && Still(env, now) && w.servers[s].state != Uninit
    requires id in w.flows && w.flows[id].server == s
    ensures var r := Visit(Tell(s, Fail), w, id, now, env, 0).0;
      id in r.flows && r.flows[id] == FailedAs(w.flows[id], env(w.tick), now)
  {
    hide Drain, TableOk, PingsOk, FailedAs, FlowOk;
    var f := w.flows[id];
    FailEventOutcome(f, CtxOf(w, f), env, w.tick, now);
    assert env(w.tick).(ok := true && env(w.tick).ok) == env(w.tick);
  }

  /** The broadcast of handle_server_set_not_working: mappings fall back to a fresh request, other flows of the server fail. */
  lemma FailBroadcast(w: World, s: nat, id: nat, now: int, env: Env)
    requires Driving(w, s, now) && Still(env, now) && w.servers[s].state == SetNotWorking && id in w.flows
    ensures var f, r := w.flows[id], OnSetNotWorking(w, s, now, env);
      id in r.flows && if f.server == s then FailedBy(f, r.flows[id], env, now) else r.flows[id] == f
  {
    NoTwice(w);
    hide PingsOk, FlowOk, Sweep, Visit, TableOk, FailedAs;
    var tick := SweepVisits(Tell(s, Fail), w, w.order, now, env, w.servers[s].nextTimeout, None, id);
    TickKeeps(w, tick);
    var w' := w.(tick := tick);
    if w.flows[id].server != s {
      VisitOther(w', s, Fail, id, now, env);
    } else {
      VisitFails(w', s, id, now, env);
    }
  }

  /** The server is given up for an hour: its flows have failed or fallen back, and no other flow has moved. */
  ghost predicate GivenUp(w: World, r: World, s: nat, now: int, env: Env)
    requires s < |r.servers|
  {
    r.servers[s].state == NotWorking && r.servers[s].nextTimeout == now + 3600 * 1_000_000 &&
    forall id :: id in w.flows ==>
      id in r.flows && if w.flows[id].server == s then FailedBy(w.flows[id], r.flows[id], env, now) else r.flows[id] == w.flows[id]
  }

  lemma SettleGivesUp(w: World, s: nat, now: int, env: Env)
    requires Driving(w, s, now) && Still(env, now) && w.servers[s].state == SetNotWorking
    ensures GivenUp(w, Settle(w, s, now, env), s, now, env)
    ensures Settle(w, s, now, env).servers[s].version == w.servers[s].version
  {
    hide Sweep, TableOk, PingsOk, FlowOk, FailedBy;
    OnSetNotWorkingKeeps(w, s, now, env);
    var w1 := OnSetNotWorking(w, s, now, env);
    assert Run(w, s, Timeout, now, env) == w1;
    TimeoutKeeps(w, s, now, env);
    assert Settle(w, s, now, env) == w1;
    forall id | id in w.flows
      ensures id in w1.flows
      ensures if w.flows[id].server == s then FailedBy(w.flows[id], w1.flows[id], env, now) else w1.flows[id] == w.flows[id]
    {
      FailBroadcast(w, s, id, now, env);
    }
  }

  /** A server that says the client's address is not its own is given up. */
  lemma MismatchGivesUp(w: World, s: nat, m: Msg, now: int, env: Env)
    requires AtRest(w) && s < |w.servers| && Still(env, now) && m.version <= MAX_VERSION
    requires InService(w.servers[s]) && m.result == 12
    ensures GivenUp(w, Iter(w, s, IoEvent(m), now, env), s, now, env)
  {
    hide Settle, TableOk, PingsOk, FlowOk, FailedBy;
    ResponseKeeps(w, s, m, now, env);
    SettleGivesUp(Run(w, s, IoEvent(m), now, env), s, now, env);
  }

  /** So is one whose last ping goes unanswered. */
  lemma SilenceGivesUp(w: World, s: nat, now: int, env: Env)
    requires AtRest(w) && s < |w.servers| && Still(env, now)
    requires w.servers[s].state == WaitPingResp && Due(w.servers[s], now) && w.servers[s].pingCount + 1 >= w.maxPing
    ensures GivenUp(w, Iter(w, s, Timeout, now, env), s, now, env)
  {
    hide TableOk, PingsOk, FlowOk, FailedBy;
    TimeoutKeeps(w, s, now, env);
    var w1 := Run(w, s, Timeout, now, env);
    assert w1.servers[s].state == SetNotWorking && w1.flows == w.flows;
    hide Settle, Run;
    SettleGivesUp(w1, s, now, env);
    SettleUnfolds(w, s, now, env);
  }

  lemma SettleUnfolds(w: World, s: nat, now: int, env: Env)
    requires Driving(w, s, now) && Still(env, now) && w.servers[s].state != Uninit && Due(w.servers[s], now)
    ensures Driving(Run(w, s, Timeout, now, env), s, now) && Run(w, s, Timeout, now, env).servers[s].state != Uninit
    ensures Settle(w, s, now, env) == Settle(Run(w, s, Timeout, now, env), s, now, env)
  {
    hide Run, TableOk, PingsOk, FlowOk;
    TimeoutKeeps(w, s, now, env);
  }

  // ------------------------------------------------- a refused version

  /** The version to try after `refused` was answered with version `offered`. */
  function NextTry(refused: nat, offered: nat): nat
    requires refused > 0
  {
    if offered == refused then refused - 1 else offered
  }

  lemma NegotiationVersion(w: World, s: nat, env: Env)
    requires Wired(w) && s < |w.servers| && w.servers[s].version <= 2 && w.servers[s].nextVersion <= 2
    ensures var srv, r := w.servers[s], OnVersionNegotiation(w, s, env).servers[s];
      if srv.version == 0 then r == srv.(nextVersion := r.nextVersion, state := SetNotWorking)
      else r.version == NextTry(srv.version, srv.nextVersion)
  {
    hide Drain, TableOk, PingsOk, FirstCandidate, AddFlow, Bucket;
  }

  /**
   A refused version is followed by the one the server offers, or the next lower one if it offers the
   same; when version 0 is refused the server is given up.
   */
  lemma VersionRefused(w: World, s: nat, m: Msg, now: int, env: Env)
    requires AtRest(w) && s < |w.servers| && Still(env, now) && m.version <= MAX_VERSION
    requires InService(w.servers[s]) && m.result == 1
    ensures var srv, r := w.servers[s], Iter(w, s, IoEvent(m), now, env);
      if srv.version == 0 then GivenUp(w, r, s, now, env) else r.servers[s].version == NextTry(srv.version, m.version)
  {
    hide Settle, OnVersionNegotiation, TableOk, PingsOk, FlowOk, FailedBy;
    var w1 := Run(w, s, IoEvent(m), now, env);
    assert w1 == PutServer(w, s, w.servers[s].(nextTimeout := now, nextVersion := m.version, state := VersionNeg));
    ResponseKeeps(w, s, m, now, env);
    NegotiationSettles(w1, s, now, env);
    if w.servers[s].version == 0 {
      GivenUpFrom(w, w1, Settle(w1, s, now, env), s, now, env);
    }
  }

  lemma GivenUpFrom(w: World, w1: World, r: World, s: nat, now: int, env: Env)
    requires w1.flows == w.flows && s < |r.servers| && GivenUp(w1, r, s, now, env)
    ensures GivenUp(w, r, s, now, env)
  {
  }

  lemma NegotiationSettles(w: World, s: nat, now: int, env: Env)
    requires Driving(w, s, now) && Still(env, now) && w.servers[s].state == VersionNeg
    ensures var srv, r := w.servers[s], Settle(w, s, now, env);
      if srv.version == 0 then GivenUp(w, r, s, now, env) else r.servers[s].version == NextTry(srv.version, srv.nextVersion)
  {
    hide OnVersionNegotiation, Settle, TableOk, PingsOk, FlowOk, FailedBy;
    NegotiationVersion(w, s, env);
    OnVersionNegotiationKeeps(w, s, now, env);
    SettleUnfolds(w, s, now, env);
    var w1 := OnVersionNegotiation(w, s, env);
    if w1.servers[s].state == SetNotWorking {
      SettleGivesUp(w1, s, now, env);
      if w.servers[s].version == 0 {
        RefusedMovesNoFlow(w, s, env);
        GivenUpFrom(w, w1, Settle(w1, s, now, env), s, now, env);
      }
    } else {
      SettleRests(w1, s, now, env);
    }
  }

  lemma RefusedMovesNoFlow(w: World, s: nat, env: Env)
    requires Wired(w) && s < |w.servers| && w.servers[s].version == 0
    ensures OnVersionNegotiation(w, s, env).flows == w.flows
  {
    hide TableOk, PingsOk, PingWithAnnounce, PingWithFlow;
  }

  lemma SettleRests(w: World, s: nat, now: int, env: Env)
    requires Driving(w, s, now) && Still(env, now) && w.servers[s].state != Uninit && !Due(w.servers[s], now)
    ensures Settle(w, s, now, env) == w
  {
    hide Run, TableOk, PingsOk, FlowOk;
  }

  // ------------------------------------------------------------ pinging

  /** A flow of server s that has not been sent: it may serve as ping. */
  predicate Waiting(f: Flow, s: nat) {
    f.server == s && (f.state == Idle || f.state == WaitServerInit || f.state == Send)
  }

  /** The flow after it was tried as ping. */
  function TriedAs(f: Flow, ok: bool, now: int): Flow {
    if ok then f.(retry := 0, resends := 0, state := WaitResp, rt := 3000, timeout := now + 3_000_000)
    else f.(retry := 0, resends := 0, state := Failed, timeout := 0)
  }

  lemma PingTriedAs(w: World, s: nat, id: nat, now: int, env: Env)
    requires WorldOk(w) && Quiet(w, None) && s < |w.servers| && w.servers[s].state != Uninit && Still(env, now)
    requires id in w.flows && Waiting(w.flows[id], s)
    ensures PingTried(w, s, id, env).flows[id] == TriedAs(w.flows[id], env(w.tick).ok, now)
    ensures PingTried(w, s, id, env).servers == w.servers[s := w.servers[s].(ping := Some(id))]
  {
    hide Drain, TableOk, PingsOk, FlowOk;
    var f := w.flows[id].(retry := 0, resends := 0);
    SendOutcome(f, SendNow, Ctx(true, false), env, w.tick);
  }

  /** The first flow in table order that waits for the server is taken. */
  lemma {:induction false} FirstIsTaken(w: World, s: nat, k: nat)
    requires TableOk(w) && k <= |w.order|
    ensures var r := FirstCandidate(w, s, w.order[k..]);
      forall j :: k <= j < |w.order| && Waiting(w.flows[w.order[j]], s) ==>
        r.Some? && (w.order[j] == r.value || Precedes(w.flows[r.value], w.flows[w.order[j]]))
    ensures var r := FirstCandidate(w, s, w.order[k..]); r.Some? ==> Waiting(w.flows[r.value], s)
    decreases |w.order| - k
  {
    hide Precedes;
    if k < |w.order| {
      var ids := w.order[k..];
      assert ids[0] == w.order[k] && ids[1..] == w.order[k + 1..];
      FirstIsTaken(w, s, k + 1);
    }
  }

  /** What pinging makes of a flow, where the flow `out` went out, if any did. */
  ghost predicate PingMoves(f: Flow, g: Flow, s: nat, out: Option<Flow>, now: int) {
    if !Waiting(f, s) then g == f
    else if out.None? || Precedes(f, out.value) then g == TriedAs(f, false, now)
    else if f.id == out.value.id then g == TriedAs(f, true, now)
    else g == f
  }

  ghost predicate PingOut(w: World, srv: Server, s: nat, now: int) {
    match srv.ping
    case Some(id) => id in w.flows && Waiting(w.flows[id], s) && srv.state == WaitPingResp && srv.nextTimeout == now + 3_000_000
    case None => srv.state == Ping && srv.nextTimeout == 0
  }

  ghost function Out(w: World, srv: Server): Option<Flow> {
    if srv.ping.Some? && srv.ping.value in w.flows then Some(w.flows[srv.ping.value]) else None
  }

  ghost predicate Pinging(w: World, r: World, s: nat, now: int)
    requires s < |r.servers|
  {
    PingOut(w, r.servers[s], s, now) &&
    forall id :: id in w.flows ==> id in r.flows && PingMoves(w.flows[id], r.flows[id], s, Out(w, r.servers[s]), now)
  }

  /**
   handle_server_ping tries the waiting flows of the server in table order: those before the one that
   goes out fail, those behind it stay, and the server waits for that one's timer. If none goes out all
   have failed and the server rests without a deadline.
   */
  lemma {:induction false} PingTakesFirst(w: World, s: nat, now: int, env: Env)
    requires WorldOk(w) && Quiet(w, None) && s < |w.servers| && w.servers[s].state != Uninit && Still(env, now)
    ensures Pinging(w, PingLoop(w, s, env), s, now)
    decreases Candidates(w, s)
  {
    hide PingTried, PingsOk, FlowOk, FirstCandidate, Pinging, Precedes, Candidates;
    var first := FirstCandidate(w, s, w.order);
    if first.None? {
      NobodyWaits(w, s, now, env);
    } else {
      var id := first.value;
      var w' := PingTried(w, s, id, env);
      PingTriedAs(w, s, id, now, env);
      if env(w.tick).ok {
        FirstGoesOut(w, s, id, now, env);
      } else {
        TriedKeeps(w, s, id, now, env);
        PingTakesFirst(w', s, now, env);
        FirstFails(w, w', PingLoop(w', s, env), s, id, now);
      }
    }
  }

  lemma FirstPrecedes(w: World, s: nat, j: nat)
    requires TableOk(w) && j in w.flows && Waiting(w.flows[j], s)
    ensures var r := FirstCandidate(w, s, w.order);
      r.Some? && (j == r.value || Precedes(w.flows[r.value], w.flows[j]))
  {
    hide Precedes;
    FirstIsTaken(w, s, 0);
    assert w.order[0..] == w.order;
    var k :| 0 <= k < |w.order| && w.order[k] == j;
  }

  lemma NobodyWaits(w: World, s: nat, now: int, env: Env)
    requires TableOk(w) && s < |w.servers| && FirstCandidate(w, s, w.order).None?
    ensures Pinging(w, PingLoop(w, s, env), s, now)
  {
    hide Precedes, FirstCandidate;
    forall j | j in w.flows
      ensures !Waiting(w.flows[j], s)
    {
      if Waiting(w.flows[j], s) {
        FirstPrecedes(w, s, j);
      }
    }
  }

  lemma FirstGoesOut(w: World, s: nat, id: nat, now: int, env: Env)
    requires TableOk(w) && s < |w.servers| && FirstCandidate(w, s, w.order) == Some(id) && now > 0
    requires var w' := PingTried(w, s, id, env);
      w'.flows[id] == TriedAs(w.flows[id], true, now) && w'.servers == w.servers[s := w.servers[s].(ping := Some(id))]
    ensures Pinging(w, PingLoop(w, s, env), s, now)
  {
    hide PingTried, FirstCandidate, Candidates;
    FirstIsTaken(w, s, 0);
    assert w.order[0..] == w.order;
    forall j | j in w.flows && Waiting(w.flows[j], s) && j != id
      ensures Precedes(w.flows[id], w.flows[j]) && !Precedes(w.flows[j], w.flows[id])
    {
      FirstPrecedes(w, s, j);
    }
    assert w.flows[id].id == id;
    hide TriedAs, Precedes, TableOk;
    assert PingLoop(w, s, env).servers[s].ping == Some(id);
  }

  /** If the first fails, what the loop does with the rest is what it does altogether. */
  lemma FirstFails(w: World, w': World, r: World, s: nat, id: nat, now: int)
    requires TableOk(w) && s < |r.servers| && FirstCandidate(w, s, w.order) == Some(id)
    requires w'.flows == w.flows[id := TriedAs(w.flows[id], false, now)] && Pinging(w', r, s, now)
    ensures Pinging(w, r, s, now)
  {
    hide FirstCandidate;
    FirstIsTaken(w, s, 0);
    assert w.order[0..] == w.order;
    forall j | j in w.flows && Waiting(w.flows[j], s) && j != id
      ensures Precedes(w.flows[id], w.flows[j])
    {
      FirstPrecedes(w, s, j);
    }
  }

  lemma TriedKeeps(w: World, s: nat, id: nat, now: int, env: Env)
    requires WorldOk(w) && Quiet(w, None) && s < |w.servers| && w.servers[s].state != Uninit && Still(env, now)
    requires id in w.flows && Candidate(w.flows[id], s) && PingTried(w, s, id, env).flows[id] == TriedAs(w.flows[id], false, now)
    ensures var w' := PingTried(w, s, id, env);
      WorldOk(w') && Quiet(w', None) && Candidates(w', s) < Candidates(w, s) &&
      w'.flows == w.flows[id := TriedAs(w.flows[id], false, now)]
  {
    PingTry(w, s, id, now, env);
    hide PingTried, WorldOk, Evolves, Fits;
    var w' := PingTried(w, s, id, env);
    assert id in Candidates(w, s) && id !in Candidates(w', s);
    assert Candidates(w', s) <= Candidates(w, s);
  }

  // --------------------------------------------------------- termination

  /** A terminated server has no deadline, keeps its flows as they are, and is driven no more. */
  lemma TerminatedRests(w: World, s: nat, now: int, env: Env, later: int, env': Env)
    requires AtRest(w) && s < |w.servers| && Still(env', later)
    ensures var r := Run(w, s, Terminate, now, env);
      AtRest(r) && r.flows == w.flows && r.servers == w.servers[s := w.servers[s].(nextTimeout := 0, state := Allocated)] &&
      Iter(r, s, Timeout, later, env') == r
  {
    hide TableOk, PingsOk, FlowOk;
    var r := Run(w, s, Terminate, now, env);
    OwnServerFits(w, s);
    WriteKeeps(w, s, w.servers[s].(nextTimeout := 0, state := Allocated));
    SettleRests(r, s, later, env');
  }
}
