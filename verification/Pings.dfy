/** The drives in which a server is pinged: the first ping, the next one, the one after an hour, the one at another version. */
module Pings {
  import opened Base
  import opened FlowKey
  import opened FlowMachine
  import opened FlowRuns
  import opened ServerMachine
  import opened ServerRuns
  import opened Drive
  import opened TimerPass
  import opened Answers
  import opened Failures

  // ---------------------------------------------------------- first ping

  /** A ping round over the whole drive: waiting flows are tried in table order, and the count starts at 0. */
  ghost predicate PingRound(w: World, r: World, s: nat, now: int)
    requires s < |r.servers|
  {
    Pinging(w, r, s, now) && r.servers[s].pingCount == 0
  }

  lemma {:induction false} PingLoopCount(w: World, s: nat, env: Env)
    requires TableOk(w) && s < |w.servers|
    ensures PingLoop(w, s, env).servers[s].pingCount == w.servers[s].pingCount
    ensures PingLoop(w, s, env).servers[s].version == w.servers[s].version
    decreases Candidates(w, s)
  {
    hide Drain, FirstCandidate, Precedes;
    var first := FirstCandidate(w, s, w.order);
    if first.Some? {
      var w' := PingTried(w, s, first.value, env);
      if w'.flows[first.value].state == Failed {
        assert first.value in Candidates(w, s) && first.value !in Candidates(w', s);
        assert Candidates(w', s) <= Candidates(w, s);
        TableKept(w, w');
        PingLoopCount(w', s, env);
      }
    }
  }

  lemma SettlePings(w: World, s: nat, now: int, env: Env)
    requires Driving(w, s, now) && Still(env, now) && w.servers[s].state == Ping && Due(w.servers[s], now)
    ensures PingRound(w, Settle(w, s, now, env), s, now)
    ensures Settle(w, s, now, env).servers[s].version == w.servers[s].version
  {
    hide PingLoop, Pinging, Settle, TableOk, PingsOk, FlowOk, Precedes;
    OnPingKeeps(w, s, now, env);
    var w0 := PutServer(w, s, w.servers[s].(pingCount := 0));
    OwnServerFits(w, s);
    WriteKeeps(w, s, w.servers[s].(pingCount := 0));
    PingLoopCount(w0, s, env);
    PingTakesFirst(w0, s, now, env);
    SettleUnfolds(w, s, now, env);
    SettleRests(OnPing(w, s, env), s, now, env);
    PingingFrom(w, w0, OnPing(w, s, env), s, now);
  }

  lemma PingingFrom(w: World, w0: World, r: World, s: nat, now: int)
    requires w0.flows == w.flows && s < |r.servers| && Pinging(w0, r, s, now)
    ensures Pinging(w, r, s, now)
  {
  }

  /** A server that is due for a ping. */
  lemma PingDrive(w: World, s: nat, now: int, env: Env)
    requires AtRest(w) && s < |w.servers| && Still(env, now) && w.servers[s].state == Ping && Due(w.servers[s], now)
    ensures PingRound(w, Iter(w, s, Timeout, now, env), s, now)
  {
    hide Settle, TableOk, PingsOk, FlowOk, PingRound;
    SettlePings(w, s, now, env);
  }

  /** A server that was given up is pinged again after its hour, at version 2, whatever made the client look. */
  lemma RepingDrive(w: World, s: nat, ev: ServerEvent, now: int, env: Env)
    requires AtRest(w) && s < |w.servers| && Still(env, now) && w.servers[s].state == NotWorking
    requires now >= w.servers[s].nextTimeout
    requires if ev.IoEvent? then ev.msg.version <= 2 else ev == Timeout && Due(w.servers[s], now)
    ensures var r := Iter(w, s, ev, now, env); PingRound(w, r, s, now) && r.servers[s].version == 2
  {
    hide Settle, TableOk, PingsOk, FlowOk, PingRound;
    var w1 := PutServer(w, s, w.servers[s].(nextTimeout := now, state := Reping));
    assert Run(w, s, ev, now, env) == w1;
    if ev.IoEvent? {
      ResponseKeeps(w, s, ev.msg, now, env);
    } else {
      SettleUnfolds(w, s, now, env);
    }
    SettleUnfolds(w1, s, now, env);
    var w2 := PutServer(w, s, w.servers[s].(version := 2, nextTimeout := now, state := Ping));
    assert Run(w1, s, Timeout, now, env) == w2;
    SettlePings(w2, s, now, env);
    RoundFrom(w, w2, Settle(w2, s, now, env), s, now);
  }

  lemma RoundFrom(w: World, w0: World, r: World, s: nat, now: int)
    requires w0.flows == w.flows && s < |r.servers| && PingRound(w0, r, s, now)
    ensures PingRound(w, r, s, now)
  {
  }

  /** While the hour lasts, a server that answers with a refusal stays given up, and nothing changes. */
  lemma RefusalWhileGivenUp(w: World, s: nat, m: Msg, now: int, env: Env)
    requires AtRest(w) && s < |w.servers| && Still(env, now) && w.servers[s].state == NotWorking
    requires now < w.servers[s].nextTimeout && m.version <= 2 && (m.result == 1 || m.result == 12)
    ensures Iter(w, s, IoEvent(m), now, env) == w
  {
    hide TableOk, PingsOk, FlowOk;
    ResponseKeeps(w, s, m, now, env);
  }

  // ----------------------------------------------------- unanswered ping

  /** handle_flow_event on a timeout of flow id. */
  lemma HandlesTimeout(w: World, s: nat, id: nat, now: int, env: Env)
    requires s < |w.servers| && w.servers[s].state != Uninit && w.servers[s].restart.None? && Still(env, now)
    requires id in w.flows && w.flows[id].server == s
    ensures var r := HandleFlow(w, id, TimedOut, None, env);
      r.servers == w.servers && r.flows == w.flows[id := TimedOutAs(w.flows[id], Luck(env(w.tick), env(w.tick + 1)), now)]
  {
    hide Drain, TimedOutAs;
    TimedOutEnds(w.flows[id], CtxOf(w, w.flows[id]), env, w.tick, now);
  }

  lemma PingTimeoutDoes(w: World, s: nat, now: int, env: Env)
    requires Driving(w, s, now) && Still(env, now) && w.servers[s].state == WaitPingResp && w.servers[s].pingCount + 1 < w.maxPing
    requires w.servers[s].ping.Some?
    ensures var srv, id, r := w.servers[s], w.servers[s].ping.value, OnPingTimeout(w, s, now, env);
      id in w.flows &&
      var g := TimedOutAs(w.flows[id], Luck(env(w.tick), env(w.tick + 1)), now);
      r.flows == w.flows[id := g] &&
      r.servers == w.servers[s := srv.(pingCount := srv.pingCount + 1, nextTimeout := if g.state == Failed then now else g.timeout,
                                       state := if g.state == Failed then SetNotWorking else WaitPingResp)]
  {
    hide HandleFlow, TableOk, FlowOk, TimedOutAs, CtxOf;
    HandlesTimeout(w, s, w.servers[s].ping.value, now, env);
  }

  /**
   A ping that goes unanswered while pings are left: the ping flow runs its timeout. If it can go on,
   the server waits for its new timer and has one ping less; if it fails, the server is given up.
   A server whose ping flow is gone starts a new round.
   */
  lemma PingTimesOut(w: World, s: nat, now: int, env: Env)
    requires AtRest(w) && s < |w.servers| && Still(env, now)
    requires w.servers[s].state == WaitPingResp && Due(w.servers[s], now) && w.servers[s].pingCount + 1 < w.maxPing
    ensures var srv, r := w.servers[s], Iter(w, s, Timeout, now, env);
      match srv.ping
      case None => PingRound(w, r, s, now)
      case Some(id) =>
        id in w.flows &&
        var g := TimedOutAs(w.flows[id], Luck(env(w.tick), env(w.tick + 1)), now);
        if g.state == Failed then GivenUp(w.(flows := w.flows[id := g]), r, s, now, env)
        else !Overdue(g.timeout, now) ==>
          r.flows == w.flows[id := g] &&
          r.servers == w.servers[s := srv.(pingCount := srv.pingCount + 1, nextTimeout := g.timeout)]
  {
    hide Settle, TableOk, FlowOk, PingRound, GivenUp, TimedOutAs, OnPingTimeout;
    OnPingTimeoutKeeps(w, s, now, env);
    SettleUnfolds(w, s, now, env);
    var w1 := OnPingTimeout(w, s, now, env);
    if w.servers[s].ping.None? {
      LostPing(w, s, now, env);
      SettlePings(w1, s, now, env);
      RoundFrom(w, w1, Settle(w1, s, now, env), s, now);
    } else {
      PingTimeoutDoes(w, s, now, env);
      if w1.servers[s].state == SetNotWorking {
        SettleGivesUp(w1, s, now, env);
        GivenUpFrom(w.(flows := w1.flows), w1, Settle(w1, s, now, env), s, now, env);
      } else if !Due(w1.servers[s], now) {
        SettleRests(w1, s, now, env);
      }
    }
  }

  lemma LostPing(w: World, s: nat, now: int, env: Env)
    requires Wired(w) && s < |w.servers| && w.servers[s].ping.None? && w.servers[s].pingCount + 1 < w.maxPing
    ensures var r := OnPingTimeout(w, s, now, env);
      r.flows == w.flows && r.servers[s].state == Ping && r.servers[s].nextTimeout == now
  {
  }

  // ----------------------------------------------------- another version

  /** The flow with its counters cleared, sent as ping once more. */
  function PingedAs(f: Flow, io: Io, now: int): Flow {
    ResentAs(f.(retry := 0, resends := 0, rt := 0), io, now)
  }

  /** The world where flow id of server s was pinged with and left as g. */
  ghost predicate PingedWith(w: World, r: World, s: nat, id: nat, g: Flow)
    requires s < |w.servers|
  {
    r.flows == w.flows[id := g] &&
    r.servers == w.servers[s := if g.state == Failed then w.servers[s].(state := SetNotWorking)
                                else w.servers[s].(nextTimeout := g.timeout, state := WaitPingResp)]
  }

  lemma PingAgainDoes(w: World, s: nat, id: nat, now: int, env: Env)
    requires s < |w.servers| && w.servers[s].state != Uninit && w.servers[s].restart.None? && Still(env, now)
    requires id in w.flows && w.flows[id].server == s
    ensures PingedWith(w, PingAgain(w, s, id, env), s, id, PingedAs(w.flows[id], env(w.tick), now))
  {
    hide Drain, PcpRt;
    var f := w.flows[id].(retry := 0, resends := 0, rt := 0);
    SendOutcome(f, SendNow, Ctx(true, false), env, w.tick);
  }

  /** The NAT-PMP announce of server srv as flow id, sent as ping or failed to be. */
  function AnnounceAs(srv: Server, s: nat, id: nat, ok: bool, now: int): (f: Flow) {
    var kd := Key(0, srv.srcIp, srv.ip, 0, srv.nonce, 0, 0, Zeros(16), 0);
    Flow(id, kd, Bucket(kd), s, if ok then WaitResp else Failed, if ok then now + 3_000_000 else 0,
         if ok then 3000 else 0, 0, 0, 0, 0, Ext(Zeros(16), 0), 0)
  }

  /** The flows once the ping flow is parked: it waits for the server again, without a timer. */
  function ParkedPing(w: World, s: nat): (flows: map<nat, Flow>)
    requires s < |w.servers|
  {
    match w.servers[s].ping
    case Some(id) => if id in w.flows then w.flows[id := w.flows[id].(state := WaitServerInit, timeout := 0)] else w.flows
    case None => w.flows
  }

  /** Server s is to be pinged with flow id at version v, which left the flow as g: it waits for it, or is given up. */
  ghost predicate NewPing(w: World, flows: map<nat, Flow>, r: World, s: nat, id: nat, v: nat, now: int, env: Env)
    requires s < |w.servers| && s < |r.servers| && id in flows
  {
    var g := flows[id];
    r.servers[s].version == v && r.servers[s].ping == Some(id) &&
    if g.state == Failed then GivenUp(w.(flows := flows), r, s, now, env)
    else
      r.flows == flows && r.servers == w.servers[s := r.servers[s]] &&
      r.servers[s].state == WaitPingResp && r.servers[s].nextTimeout == g.timeout
  }

  /** What PingAgain leaves, driven on. */
  lemma PingedSettles(w: World, w1: World, r: World, s: nat, id: nat, g: Flow, now: int, env: Env)
    requires Driving(r, s, now) && Still(env, now) && s < |w1.servers| == |w.servers| && PingedWith(w1, r, s, id, g)
    requires w1.servers == w.servers[s := w1.servers[s]] && w1.servers[s].ping == Some(id)
    requires SentOrFailed(g, now)
    ensures NewPing(w, w1.flows[id := g], Settle(r, s, now, env), s, id, w1.servers[s].version, now, env)
  {
    hide Settle, TableOk, PingsOk, FlowOk, GivenUp;
    if g.state == Failed {
      SettleGivesUp(r, s, now, env);
      SettleKeepsPing(r, s, now, env);
      GivenUpFrom(w.(flows := w1.flows[id := g]), r, Settle(r, s, now, env), s, now, env);
    } else {
      SettleRests(r, s, now, env);
    }
  }

  lemma SettleKeepsPing(w: World, s: nat, now: int, env: Env)
    requires Driving(w, s, now) && Still(env, now) && w.servers[s].state == SetNotWorking
    ensures Settle(w, s, now, env).servers[s].ping == w.servers[s].ping
  {
    hide Sweep, TableOk, PingsOk, FlowOk;
    OnSetNotWorkingKeeps(w, s, now, env);
    SettleUnfolds(w, s, now, env);
    SettleRests(OnSetNotWorking(w, s, now, env), s, now, env);
  }

  lemma AnnounceSentOrFailed(srv: Server, s: nat, id: nat, ok: bool, now: int)
    requires now > 0
    ensures SentOrFailed(AnnounceAs(srv, s, id, ok, now), now)
  {
    hide Bucket;
  }

  /** The server as handle_version_negotiation finds it, after version `offered` came with a refusal. */
  function Refused(w: World, s: nat, offered: Byte, now: int): World
    requires s < |w.servers|
  {
    PutServer(w, s, w.servers[s].(nextTimeout := now, nextVersion := offered, state := VersionNeg))
  }

  lemma RefusalUnfolds(w: World, s: nat, m: Msg, now: int, env: Env)
    requires AtRest(w) && s < |w.servers| && Still(env, now) && m.version <= 2 && m.result == 1 && InService(w.servers[s])
    ensures Wired(Refused(w, s, m.version, now))
    ensures var w1 := OnVersionNegotiation(Refused(w, s, m.version, now), s, env);
      Driving(w1, s, now) && Pinged(w1.servers[s], now) && Iter(w, s, IoEvent(m), now, env) == Settle(w1, s, now, env)
  {
    hide Settle, OnVersionNegotiation, TableOk, PingsOk, FlowOk;
    var w1 := Refused(w, s, m.version, now);
    assert Run(w, s, IoEvent(m), now, env) == w1;
    ResponseKeeps(w, s, m, now, env);
    OnVersionNegotiationKeeps(w1, s, now, env);
    SettleUnfolds(w1, s, now, env);
  }

  /** The step that goes to version 0; w2 is the world in which the announce is sent. */
  lemma AnnounceNegotiated(w: World, s: nat, offered: Byte, now: int, env: Env) returns (w2: World)
    requires Wired(w) && s < |w.servers| && Still(env, now) && w.servers[s].restart.None?
    requires 0 < w.servers[s].version <= 2 && offered <= 2 && NextTry(w.servers[s].version, offered) == 0
    ensures Wired(Refused(w, s, offered, now))
    ensures |w2.servers| == |w.servers| && w2.servers == w.servers[s := w2.servers[s]] && w2.servers[s].version == 0
    ensures w2.servers[s].ping == Some(w.nextId)
    ensures var g := AnnounceAs(w.servers[s], s, w.nextId, env(w.tick).ok, now);
      w2.flows[w.nextId := g] == ParkedPing(w, s)[w.nextId := g] &&
      PingedWith(w2, OnVersionNegotiation(Refused(w, s, offered, now), s, env), s, w.nextId, g)
  {
    hide PingAgain, Bucket, InsertAt, Precedes, PingedAs, PingedWith, AnnounceAs;
    var w1 := Refused(w, s, offered, now);
    var w0 := PutServer(w1, s, w1.servers[s].(nextVersion := 0, version := 0)).(flows := ParkedPing(w, s));
    ParkedTable(w, w0, s);
    w2 := AddAnnounce(w0, s);
    assert OnVersionNegotiation(w1, s, env) == PingAgain(w2, s, w.nextId, env);
    AnnounceIsFresh(w2.flows[w.nextId], w.servers[s], s, w.nextId, env(w.tick), now);
    PingAgainDoes(w2, s, w.nextId, now, env);
  }

  lemma ParkedTable(w: World, w0: World, s: nat)
    requires Wired(w) && s < |w.servers| && w0.order == w.order && w0.nextId == w.nextId && w0.flows == ParkedPing(w, s)
    ensures TableOk(w0)
  {
    hide Precedes;
    TableKept(w, w0);
  }

  lemma AnnounceIsFresh(f: Flow, srv: Server, s: nat, id: nat, io: Io, now: int)
    requires var kd := Key(OP_ANNOUNCE, srv.srcIp, srv.ip, 0, srv.nonce, 0, 0, Zeros(16), 0);
      f == Flow(id, kd, Bucket(kd), s, Idle, 0, 0, 0, 0, 0, 0, Ext(Zeros(16), 0), 0)
    ensures PingedAs(f, io, now) == AnnounceAs(srv, s, id, io.ok, now)
  {
    hide Bucket;
  }

  /** Refused down to version 0: the server is pinged with an announce, and its old ping flow is parked. */
  lemma FallsBackToNatPmp(w: World, s: nat, m: Msg, now: int, env: Env)
    requires AtRest(w) && s < |w.servers| && Still(env, now) && m.version <= 2 && m.result == 1 && InService(w.servers[s])
    requires w.servers[s].version > 0 && NextTry(w.servers[s].version, m.version) == 0
    ensures var announce := AnnounceAs(w.servers[s], s, w.nextId, env(w.tick).ok, now);
      NewPing(w, ParkedPing(w, s)[w.nextId := announce], Iter(w, s, IoEvent(m), now, env), s, w.nextId, 0, now, env)
  {
    RefusalUnfolds(w, s, m, now, env);
    hide Iter, Settle, OnVersionNegotiation, TableOk, FlowOk, NewPing, GivenUp, AnnounceAs, ParkedPing, PingedWith, Refused;
    var w2 := AnnounceNegotiated(w, s, m.version, now, env);
    var g := AnnounceAs(w.servers[s], s, w.nextId, env(w.tick).ok, now);
    AnnounceSentOrFailed(w.servers[s], s, w.nextId, env(w.tick).ok, now);
    PingedSettles(w, w2, OnVersionNegotiation(Refused(w, s, m.version, now), s, env), s, w.nextId, g, now, env);
  }

  /** The answer to that announce, whatever its key, is meant for the announce flow. */
  lemma AnnounceIsAnswered(w: World, s: nat, m: Msg, now: int, env: Env, answer: Msg)
    requires AtRest(w) && s < |w.servers| && Still(env, now) && m.version <= 2 && m.result == 1 && InService(w.servers[s])
    requires w.servers[s].version > 0 && NextTry(w.servers[s].version, m.version) == 0 && env(w.tick).ok
    requires answer.version == 0 && answer.kd.op == 0
    ensures var r := Iter(w, s, IoEvent(m), now, env); AtRest(r) && Target(r, s, answer) == Some(w.nextId)
  {
    hide Iter, TableOk, FlowOk, GivenUp, ParkedPing;
    FallsBackToNatPmp(w, s, m, now, env);
    IterKeeps(w, s, IoEvent(m), now, env);
  }

  /** A NAT-PMP announce is meant for a flow only if that is an announce too, the ping flow, and the server at version 0. */
  lemma AnnounceReachesPing(w: World, s: nat, answer: Msg, id: nat)
    requires Wired(w) && s < |w.servers| && answer.version == 0 && answer.kd.op == 0
    ensures Target(w, s, answer) == Some(id) <==>
            w.servers[s].version == 0 && w.servers[s].ping == Some(id) && w.flows[id].kd.op == 0
  {
    hide TableOk, Lookup;
  }

  /** The flow to ping with: the ping flow at hand, or the first that waits. */
  ghost predicate IsPing(w: World, s: nat, id: nat)
    requires s < |w.servers|
  {
    id in w.flows &&
    (w.servers[s].ping == Some(id) ||
     (w.servers[s].ping.None? && Waiting(w.flows[id], s) &&
      forall j :: j in w.flows && Waiting(w.flows[j], s) && j != id ==> Precedes(w.flows[id], w.flows[j])))
  }

  /**
   Refused, with another of versions 1 and 2 to try: the ping flow at hand, or the first flow that waits,
   is sent as ping at that version with its counters cleared. If no flow waits the server rests.
   */
  lemma TriesVersion(w: World, s: nat, m: Msg, now: int, env: Env)
    requires AtRest(w) && s < |w.servers| && Still(env, now) && m.version <= 2 && m.result == 1 && InService(w.servers[s])
    requires w.servers[s].version > 0 && NextTry(w.servers[s].version, m.version) > 0
    ensures var v, r := NextTry(w.servers[s].version, m.version), Iter(w, s, IoEvent(m), now, env);
      (forall id :: IsPing(w, s, id) ==>
         NewPing(w, w.flows[id := PingedAs(w.flows[id], env(w.tick), now)], r, s, id, v, now, env)) &&
      ((forall id :: id in w.flows ==> !IsPing(w, s, id)) ==>
         r.flows == w.flows && r.servers[s].version == v && r.servers[s].state == Ping && r.servers[s].nextTimeout == 0)
  {
    RefusalUnfolds(w, s, m, now, env);
    hide Iter, Settle, OnVersionNegotiation, FlowOk, NewPing, GivenUp, PingedAs, PingedWith, Precedes;
    var w1 := OnVersionNegotiation(Refused(w, s, m.version, now), s, env);
    if exists id :: IsPing(w, s, id) {
      var id :| IsPing(w, s, id);
      OnlyPing(w, s, id);
      FlowNegotiated(w, s, m.version, id, now, env);
      var w2 := PutServer(w, s, Retried(w.servers[s], m.version, now).(ping := Some(id)));
      var g := PingedAs(w.flows[id], env(w.tick), now);
      PingedSentOrFailed(w.flows[id], env(w.tick), now);
      PingedSettles(w, w2, w1, s, id, g, now, env);
    } else {
      NoFlowNegotiated(w, s, m.version, now, env);
      SettleRests(w1, s, now, env);
    }
  }

  /** The server set to its next version. */
  function Retried(srv: Server, offered: Byte, now: int): Server
    requires 0 < srv.version <= 2 && offered <= 2
  {
    var v := NextTry(srv.version, offered);
    srv.(nextTimeout := now, nextVersion := v, version := v, state := VersionNeg)
  }

  lemma PingedSentOrFailed(f: Flow, io: Io, now: int)
    requires now > 0
    ensures SentOrFailed(PingedAs(f, io, now), now)
  {
    hide Jitter;
  }

  /** There is one flow to ping with. */
  lemma OnlyPing(w: World, s: nat, id: nat)
    requires TableOk(w) && s < |w.servers| && IsPing(w, s, id)
    ensures forall j :: IsPing(w, s, j) ==> j == id
    ensures w.servers[s].ping.None? ==> FirstCandidate(w, s, w.order) == Some(id)
  {
    if w.servers[s].ping.None? {
      FirstPrecedes(w, s, id);
    }
  }

  lemma FlowNegotiated(w: World, s: nat, offered: Byte, id: nat, now: int, env: Env)
    requires Wired(w) && s < |w.servers| && Still(env, now) && w.servers[s].restart.None?
    requires 0 < w.servers[s].version <= 2 && offered <= 2 && NextTry(w.servers[s].version, offered) > 0 && IsPing(w, s, id)
    ensures Wired(Refused(w, s, offered, now))
    ensures var w2 := PutServer(w, s, Retried(w.servers[s], offered, now).(ping := Some(id)));
      PingedWith(w2, OnVersionNegotiation(Refused(w, s, offered, now), s, env), s, id, PingedAs(w.flows[id], env(w.tick), now))
  {
    hide PingAgain, PingedAs, PingedWith, Precedes, FirstCandidate, OnVersionNegotiation, Retried;
    OnlyPing(w, s, id);
    Negotiated(w, s, offered, now, env);
    var w1 := PutServer(w, s, Retried(w.servers[s], offered, now));
    var w2 := PutServer(w, s, Retried(w.servers[s], offered, now).(ping := Some(id)));
    SameFirst(w, w1, s, w.order);
    RetriedKeepsPing(w.servers[s], offered, now);
    assert w1.servers[s].ping == Some(id) ==> w1 == w2;
    assert PutServer(w1, s, w1.servers[s].(ping := Some(id))) == w2;
    PingAgainDoes(w2, s, id, now, env);
  }

  lemma RetriedKeepsPing(srv: Server, offered: Byte, now: int)
    requires 0 < srv.version <= 2 && offered <= 2
    ensures var r := Retried(srv, offered, now); r.ping == srv.ping && r.restart == srv.restart && r.state == VersionNeg
  {
  }

  /** The step to version 1 or 2. */
  lemma Negotiated(w: World, s: nat, offered: Byte, now: int, env: Env)
    requires Wired(w) && s < |w.servers|
    requires 0 < w.servers[s].version <= 2 && offered <= 2 && NextTry(w.servers[s].version, offered) > 0
    ensures var w1 := PutServer(w, s, Retried(w.servers[s], offered, now));
      Wired(Refused(w, s, offered, now)) && Wired(w1) &&
      OnVersionNegotiation(Refused(w, s, offered, now), s, env) == PingWithFlow(w1, s, env)
  {
    hide PingWithFlow, PingWithAnnounce, Precedes;
    var srv := w.servers[s];
    var a, b := Refused(w, s, offered, now), PutServer(w, s, Retried(srv, offered, now));
    assert PutServer(a, s, Retried(srv, offered, now)) == b;
  }

  lemma NoFlowNegotiated(w: World, s: nat, offered: Byte, now: int, env: Env)
    requires Wired(w) && s < |w.servers| && 0 < w.servers[s].version <= 2 && offered <= 2
    requires NextTry(w.servers[s].version, offered) > 0 && forall id :: id in w.flows ==> !IsPing(w, s, id)
    ensures Wired(Refused(w, s, offered, now))
    ensures var r, v := OnVersionNegotiation(Refused(w, s, offered, now), s, env), NextTry(w.servers[s].version, offered);
      r.flows == w.flows && r.servers[s].version == v && r.servers[s].state == Ping && r.servers[s].nextTimeout == 0
  {
    hide PingAgain, IsPing, Precedes, FirstCandidate, OnVersionNegotiation;
    Negotiated(w, s, offered, now, env);
    SameFirst(w, PutServer(w, s, Retried(w.servers[s], offered, now)), s, w.order);
    if w.servers[s].ping.Some? || FirstCandidate(w, s, w.order).Some? {
      SomePing(w, s);
    }
  }

  lemma SomePing(w: World, s: nat)
    requires Wired(w) && s < |w.servers| && (w.servers[s].ping.Some? || FirstCandidate(w, s, w.order).Some?)
    ensures exists id :: id in w.flows && IsPing(w, s, id)
  {
    hide FirstCandidate, Precedes;
    if w.servers[s].ping.Some? {
      assert IsPing(w, s, w.servers[s].ping.value);
    } else {
      FirstIsPing(w, s);
    }
  }

  lemma FirstIsPing(w: World, s: nat)
    requires TableOk(w) && s < |w.servers| && w.servers[s].ping.None? && FirstCandidate(w, s, w.order).Some?
    ensures IsPing(w, s, FirstCandidate(w, s, w.order).value)
  {
    hide FirstCandidate, Precedes;
    forall j | j in w.flows && Waiting(w.flows[j], s)
      ensures var r := FirstCandidate(w, s, w.order).value; j == r || Precedes(w.flows[r], w.flows[j])
    {
      FirstPrecedes(w, s, j);
    }
  }

  /** The choice looks at the flows only. */
  lemma {:induction false} SameFirst(w: World, w': World, s: nat, ids: seq<nat>)
    requires w'.flows == w.flows && forall id :: id in ids ==> id in w.flows
    ensures FirstCandidate(w', s, ids) == FirstCandidate(w, s, ids)
  {
    if ids != [] {
      SameFirst(w, w', s, ids[1..]);
    }
  }
}
