/** The event handler as it runs: a context updated in place, proved against the functions on worlds. */
module Engine {
  import opened Base
  import opened FlowKey
  import opened FlowMachine
  import opened FlowRuns
  import opened Epoch
  import opened ServerMachine
  import opened ServerRuns
  import opened Drive
  import opened Pulse

  // -------------------------------------------------------- table scans

  /** The scan of flow_events_sm. */
  method FindNextState(st: FlowState, ev: FlowEvent) returns (next: Option<FlowState>)
    ensures next == NextState(st, ev)
  {
    hide NextState;
    var i: nat := 0;
    while i < EVENT_ROWS && !EventRowMatches(i, st, ev)
      invariant i <= EVENT_ROWS && forall k: nat :: k < i ==> !EventRowMatches(k, st, ev)
    {
      i := i + 1;
    }
    EventTableMeaning(st, ev, i);
    next := if i < EVENT_ROWS then Some(EventRow(i).2) else None;
  }

  /** The scan of flow_transitions. */
  method FindHandler(from: FlowState, to: FlowState) returns (h: Option<Handler>)
    ensures h == HandlerFor(from, to)
  {
    hide HandlerFor;
    var i: nat := 0;
    while i < TRANSITION_ROWS && !TransitionRowMatches(i, from, to)
      invariant i <= TRANSITION_ROWS && forall k: nat :: k < i ==> !TransitionRowMatches(k, from, to)
    {
      i := i + 1;
    }
    TransitionTableMeaning(from, to, i);
    h := if i < TRANSITION_ROWS then Some(TransitionRow(i).2) else None;
  }

  datatype ServerHandler =
    | STerminate | SPing | SPingTimeout | SPingReceive | SVersionNeg | SSendAll | SReceive | STimers
    | SRestart | SReping | SSetNotWorking | SNotWorking | SIgnore | SUnexpected

  datatype EventKind = OnTimeout | OnIo | OnTerminate

  function KindOf(ev: ServerEvent): EventKind {
    match ev case Timeout => OnTimeout case IoEvent(_) => OnIo case Terminate => OnTerminate
  }

  const SERVER_ROWS: nat := 15

  /** server_sm, row by row; None stands for pss_any and pcpe_any. */
  function ServerRow(i: nat): (row: (Option<ServerState>, Option<EventKind>, ServerHandler))
    requires i < SERVER_ROWS
  {
    match i
    case 0 => (None, Some(OnTerminate), STerminate)
    case 1 => (Some(Ping), None, SPing)
    case 2 => (Some(WaitPingResp), Some(OnTimeout), SPingTimeout)
    case 3 => (Some(WaitPingResp), Some(OnIo), SPingReceive)
    case 4 => (Some(VersionNeg), None, SVersionNeg)
    case 5 => (Some(SendAll), None, SSendAll)
    case 6 => (Some(WaitIo), Some(OnIo), SReceive)
    case 7 => (Some(WaitIo), Some(OnTimeout), STimers)
    case 8 => (Some(CalcNearest), None, STimers)
    case 9 => (Some(Restart), None, SRestart)
    case 10 => (Some(Reping), None, SReping)
    case 11 => (Some(SetNotWorking), None, SSetNotWorking)
    case 12 => (Some(NotWorking), None, SNotWorking)
    case 13 => (Some(Allocated), None, SIgnore)
    case _ => (None, None, SUnexpected)
  }

  predicate ServerRowMatches(i: nat, st: ServerState, k: EventKind)
    requires i < SERVER_ROWS
  {
    (ServerRow(i).0 == None || ServerRow(i).0 == Some(st)) && (ServerRow(i).1 == None || ServerRow(i).1 == Some(k))
  }

  /** The server table read by state. */
  function ServerHandlerFor(st: ServerState, k: EventKind): (h: ServerHandler) {
    if k == OnTerminate then STerminate
    else
      match st
      case Ping => SPing
      case WaitPingResp => if k == OnIo then SPingReceive else SPingTimeout
      case VersionNeg => SVersionNeg
      case SendAll => SSendAll
      case WaitIo => if k == OnIo then SReceive else STimers
      case CalcNearest => STimers
      case Restart => SRestart
      case Reping => SReping
      case SetNotWorking => SSetNotWorking
      case NotWorking => SNotWorking
      case Allocated => SIgnore
      case Uninit => SUnexpected
  }

  /** Some row always matches, and the first one that does is the one ServerHandlerFor names. */
  lemma ServerTableMeaning(st: ServerState, k: EventKind, i: nat)
    requires i <= SERVER_ROWS && (i < SERVER_ROWS ==> ServerRowMatches(i, st, k))
    requires forall j: nat :: j < i ==> !ServerRowMatches(j, st, k)
    ensures i < SERVER_ROWS && ServerHandlerFor(st, k) == ServerRow(i).2
  {
    assert ServerRowMatches(14, st, k) && ServerRowMatches(ServerRowFor(st, k), st, k);
    assert i <= ServerRowFor(st, k);
    if 0 < i {
      assert !ServerRowMatches(0, st, k);
    }
  }

  /** The row that fires. */
  function ServerRowFor(st: ServerState, k: EventKind): (i: nat)
    ensures i < SERVER_ROWS && ServerRowMatches(i, st, k) && ServerRow(i).2 == ServerHandlerFor(st, k)
  {
    if k.OnTerminate? then 0
    else
      assert k.OnIo? || k.OnTimeout?;
      match st
      case Ping => 1
      case WaitPingResp => if k.OnIo? then 3 else 2
      case VersionNeg => 4
      case SendAll => 5
      case WaitIo => if k.OnIo? then 6 else 7
      case CalcNearest => 8
      case Restart => 9
      case Reping => 10
      case SetNotWorking => 11
      case NotWorking => 12
      case Allocated => 13
      case Uninit => 14
  }

  method FindServerHandler(st: ServerState, k: EventKind) returns (h: ServerHandler)
    ensures h == ServerHandlerFor(st, k)
  {
    hide ServerHandlerFor;
    var i: nat := 0;
    while i < SERVER_ROWS && !ServerRowMatches(i, st, k)
      invariant i <= SERVER_ROWS && forall j: nat :: j < i ==> !ServerRowMatches(j, st, k)
    {
      i := i + 1;
    }
    ServerTableMeaning(st, k, i);
    h := ServerRow(i).2;
  }

  /** The loop of handle_flow_event on one flow. */
  method FollowTables(f: Flow, ev: FlowEvent, c: Ctx, m: Option<Msg>, env: Env, tick: nat) returns (d: Drained)
    requires ev.Res? ==> m.Some?
    ensures d == Drain(f, ev, c, m, env, tick)
  {
    hide NextState, HandlerFor, RunHandler, SameIdentity, TakeTurn, Drain, DrainRank;
    d := Drained(f, tick, 0);
    var cur := ev;
    while true
      invariant cur.Res? ==> m.Some?
      invariant Drain(f, ev, c, m, env, tick) == Later(d, Drain(d.flow, cur, c, m, env, d.tick))
      decreases DrainRank(d.flow.state, cur)
    {
      DrainUnfolds(d.flow, cur, c, m, env, d.tick);
      var next := FindNextState(d.flow.state, cur);
      if next.None? {
        return;
      }
      var h := FindHandler(d.flow.state, next.value);
      if h.None? {
        d := d.(flow := d.flow.(state := next.value));
        return;
      }
      HandlerNeedsMessage(d.flow.state, cur, next.value, h.value);
      var (g, ev') := RunHandler(h.value, d.flow.(state := next.value), c, m, env(d.tick));
      d, cur := Drained(g, d.tick + 1, d.runs + 1), ev';
      if cur == Nothing {
        return;
      }
    }
  }

  /** What is still to come, after d.runs handlers. */
  function Later(d: Drained, rest: Drained): Drained {
    Drained(rest.flow, rest.tick, d.runs + rest.runs)
  }

  /** One round of the loop, read off the tables. */
  lemma DrainUnfolds(f: Flow, ev: FlowEvent, c: Ctx, m: Option<Msg>, env: Env, tick: nat)
    requires ev.Res? ==> m.Some?
    ensures var next := NextState(f.state, ev);
      if next.None? then Drain(f, ev, c, m, env, tick) == Drained(f, tick, 0)
      else
        var h := HandlerFor(f.state, next.value);
        if h.None? then Drain(f, ev, c, m, env, tick) == Drained(f.(state := next.value), tick, 0)
        else
          (h == Some(HShortLife) || h == Some(HSuccess) ==> m.Some?) &&
          var (g, ev') := RunHandler(h.value, f.(state := next.value), c, m, env(tick));
          if ev' == Nothing then Drain(f, ev, c, m, env, tick) == Drained(g, tick + 1, 1)
          else
            !ev'.Res? && DrainRank(g.state, ev') < DrainRank(f.state, ev) &&
            Drain(f, ev, c, m, env, tick) == Later(Drained(g, tick + 1, 1), Drain(g, ev', c, m, env, tick + 1))
  {
    hide NextState, HandlerFor, RunHandler, SameIdentity, DrainRank;
    var next := NextState(f.state, ev);
    if next.Some? && HandlerFor(f.state, next.value).Some? {
      HandlerNeedsMessage(f.state, ev, next.value, HandlerFor(f.state, next.value).value);
      var t := TakeTurn(f, ev, c, m, env(tick));
    }
  }

  /** The two handlers that read the message run only on events that carry one. */
  lemma HandlerNeedsMessage(st: FlowState, ev: FlowEvent, next: FlowState, h: Handler)
    requires NextState(st, ev) == Some(next) && HandlerFor(st, next) == Some(h)
    ensures h == HShortLife || h == HSuccess ==> ev.Res?
  {
  }

  // -------------------------------------------------------- the context

  /** run_server_state_machine stores the state a handler returns. */
  function WithState(w: World, s: nat, st: ServerState): (r: World)
    requires s < |w.servers|
  {
    PutServer(w, s, w.servers[s].(state := st))
  }

  class Context {
    var flows: map<nat, Flow>
    var order: seq<nat>
    var servers: seq<Server>
    var nextId: nat
    var tick: nat
    const maxPing: nat

    constructor (maxPing: nat)
      ensures Value() == World(map[], [], [], 0, 0, maxPing)
    {
      flows, order, servers, nextId, tick := map[], [], [], 0, 0;
      this.maxPing := maxPing;
    }

    function Value(): (w: World)
      reads this
    {
      World(flows, order, servers, nextId, tick, maxPing)
    }

    // ------------------------------------------------------- flow events

    method HandleFlowEvent(id: nat, ev: FlowEvent, m: Option<Msg>, env: Env)
      requires id in flows && (ev.Res? ==> m.Some?)
      modifies `flows, `tick
      ensures Value() == HandleFlow(old(Value()), id, ev, m, env)
    {
      var d := FollowTables(flows[id], ev, CtxOf(Value(), flows[id]), m, env, tick);
      flows, tick := flows[id := d.flow], d.tick;
    }

    /** check_flow_timeout. */
    method CheckFlowTimeout(id: nat, now: int, env: Env, tout: int) returns (t: int)
      requires id in flows
      modifies `flows, `tick
      ensures (Value(), t) == CheckFlow(old(Value()), id, now, env, tout)
    {
      hide Drain;
      t := tout;
      if flows[id].timeout == 0 {
        return;
      }
      if flows[id].timeout <= now {
        HandleFlowEvent(id, TimedOut, None, env);
      }
      t := FoldTimer(flows[id].timeout, now, t);
    }

    // ------------------------------------------------------------ sweeps

    /** flow_send_event_iter and check_flow_timeout, as pcp_db_foreach_flow calls them. */
    method VisitFlow(job: Job, id: nat, now: int, env: Env, tout: int) returns (t: int)
      requires id in flows && Telling(job)
      modifies `flows, `tick
      ensures (Value(), t) == Visit(job, old(Value()), id, now, env, tout)
    {
      hide Drain;
      match job
      case CheckAll => t := CheckFlowTimeout(id, now, env, tout);
      case Tell(s, ev) =>
        t := tout;
        if flows[id].server == s {
          HandleFlowEvent(id, ev, None, env);
          t := CheckFlowTimeout(id, now, env, tout);
        }
    }

    /** pcp_db_foreach_flow with either callback. */
    method ForeachFlow(job: Job, now: int, env: Env, tout: int) returns (t: int)
      requires Telling(job) && forall id :: id in order ==> id in flows
      modifies `flows, `tick
      ensures (Value(), t) == Sweep(job, old(Value()), order, now, env, tout)
    {
      hide Visit, HandleFlow;
      t := tout;
      var i: nat := 0;
      while i < |order|
        invariant i <= |order| && flows.Keys == old(flows.Keys)
        invariant Sweep(job, Value(), order[i..], now, env, t) == Sweep(job, old(Value()), order, now, env, tout)
      {
        assert order[i..][0] == order[i] && order[i..][1..] == order[i + 1..];
        VisitKeys(job, Value(), order[i], now, env, t);
        t := VisitFlow(job, order[i], now, env, t);
        i := i + 1;
      }
    }

    /** get_ping_msg: the first flow that may serve as ping becomes the server's ping. */
    method GetPingMsg(s: nat) returns (r: Option<nat>)
      requires s < |servers| && forall id :: id in order ==> id in flows
      modifies `servers
      ensures r == FirstCandidate(old(Value()), s, order)
      ensures servers == old(servers)[s := old(servers)[s].(ping := r)]
    {
      r := None;
      var i: nat := 0;
      while i < |order|
        invariant i <= |order| && r.None? && servers == old(servers)
        invariant FirstCandidate(Value(), s, order[i..]) == FirstCandidate(Value(), s, order)
      {
        assert order[i..][0] == order[i] && order[i..][1..] == order[i + 1..];
        if Candidate(flows[order[i]], s) {
          r := Some(order[i]);
          break;
        }
        i := i + 1;
      }
      servers := servers[s := servers[s].(ping := r)];
    }

    /** pcp_get_flow: the first flow with that key and server. */
    method GetFlow(kd: Key, s: nat) returns (r: Option<nat>)
      requires forall id :: id in order ==> id in flows
      ensures r == Lookup(Value(), kd, s, order)
    {
      hide Bucket;
      var i: nat := 0;
      while i < |order|
        invariant i <= |order|
        invariant Lookup(Value(), kd, s, order[i..]) == Lookup(Value(), kd, s, order)
      {
        assert order[i..][0] == order[i] && order[i..][1..] == order[i + 1..];
        if KeyMatches(flows[order[i]], kd, s) {
          return Some(order[i]);
        }
        i := i + 1;
      }
      r := None;
    }

    // --------------------------------------------------- server handlers

    /** One round of handle_server_ping: ping with flow id, its retry count cleared. */
    method SendPing(s: nat, id: nat, env: Env)
      requires s < |servers| && id in flows && servers[s].ping == Some(id)
      modifies `flows, `tick
      ensures Value() == PingTried(old(Value()), s, id, env)
    {
      hide HandleFlow;
      assert servers == servers[s := servers[s].(ping := Some(id))];
      flows := flows[id := flows[id].(retry := 0, resends := 0)];
      HandleFlowEvent(id, SendNow, None, env);
    }

    /** handle_server_ping. */
    method ServerPing(s: nat, env: Env) returns (st: ServerState)
      requires Wired(Value()) && s < |servers|
      modifies this
      ensures s < |servers| && WithState(Value(), s, st) == OnPing(old(Value()), s, env)
    {
      hide PingTried, Candidates, FirstCandidate, Precedes, PingsOk, HandleFlow;
      servers := servers[s := servers[s].(pingCount := 0)];
      ghost var goal := PingLoop(Value(), s, env);
      while true
        invariant s < |servers| && TableOk(Value()) && PingLoop(Value(), s, env) == goal
        decreases Candidates(Value(), s)
      {
        ghost var w := Value();
        var msg := GetPingMsg(s);
        if msg.None? {
          servers := servers[s := servers[s].(nextTimeout := 0)];
          return Ping;
        }
        PingRound(w, s, msg.value, env);
        SendPing(s, msg.value, env);
        if flows[msg.value].state != Failed {
          servers := servers[s := servers[s].(nextTimeout := flows[msg.value].timeout)];
          return WaitPingResp;
        }
      }
    }

    /** handle_wait_ping_resp_timeout. */
    method PingRespTimeout(s: nat, now: int, env: Env) returns (st: ServerState)
      requires Wired(Value()) && s < |servers|
      modifies this
      ensures s < |servers| && WithState(Value(), s, st) == OnPingTimeout(old(Value()), s, now, env)
    {
      hide TableOk, Drain;
      servers := servers[s := servers[s].(pingCount := servers[s].pingCount + 1)];
      if servers[s].pingCount >= maxPing {
        servers := servers[s := servers[s].(nextTimeout := now)];
        return SetNotWorking;
      }
      if servers[s].ping.None? {
        servers := servers[s := servers[s].(nextTimeout := now)];
        return Ping;
      }
      var id := servers[s].ping.value;
      PingCountUnread(old(Value()), s, servers[s], id, env);
      HandleFlowEvent(id, TimedOut, None, env);
      if flows[id].state == Failed {
        servers := servers[s := servers[s].(nextTimeout := now)];
        return SetNotWorking;
      }
      servers := servers[s := servers[s].(nextTimeout := flows[id].timeout)];
      return WaitPingResp;
    }

    /** create_natpmp_ann_msg. */
    method CreateAnnounce(s: nat) returns (id: nat)
      requires TableOk(Value()) && s < |servers|
      modifies this
      ensures id == old(nextId) && id in flows && Value() == AddAnnounce(old(Value()), s)
    {
      hide TableOk, Bucket;
      var f := AnnounceFlow(Value(), s);
      var i := InsertAt(Value(), f.bucket, 0);
      flows, order, nextId := flows[f.id := f], order[..i] + [f.id] + order[i..], nextId + 1;
      servers := servers[s := servers[s].(ping := Some(f.id))];
      return f.id;
    }

    /** The tail of handle_version_negotiation. */
    method SendAgain(s: nat, id: nat, env: Env) returns (st: ServerState)
      requires s < |servers| && id in flows
      modifies this
      ensures s < |servers| && WithState(Value(), s, st) == PingAgain(old(Value()), s, id, env)
    {
      hide Drain;
      flows := flows[id := flows[id].(retry := 0, resends := 0, rt := 0)];
      HandleFlowEvent(id, SendNow, None, env);
      if flows[id].state == Failed {
        return SetNotWorking;
      }
      servers := servers[s := servers[s].(nextTimeout := flows[id].timeout)];
      return WaitPingResp;
    }

    /** handle_version_negotiation. */
    method VersionNegotiation(s: nat, env: Env) returns (st: ServerState)
      requires Wired(Value()) && s < |servers|
      modifies this
      ensures s < |servers| && WithState(Value(), s, st) == OnVersionNegotiation(old(Value()), s, env)
    {
      hide TableOk, PingAgain, FirstCandidate, AddAnnounce, PingWithFlow, PingWithAnnounce;
      servers := servers[s := servers[s].(nextVersion := NextVersion(servers[s]))];
      if servers[s].version == 0 {
        return SetNotWorking;
      }
      servers := servers[s := servers[s].(version := servers[s].nextVersion)];
      assert servers == old(servers)[s := servers[s]];
      WiredWrite(old(Value()), Value(), s);
      if servers[s].version == 0 {
        st := NegotiateNatPmp(s, env);
      } else {
        st := NegotiateWithFlow(s, env);
      }
    }

    method NegotiateNatPmp(s: nat, env: Env) returns (st: ServerState)
      requires Wired(Value()) && s < |servers|
      modifies this
      ensures s < |servers| && WithState(Value(), s, st) == PingWithAnnounce(old(Value()), s, env)
    {
      hide PingAgain, AddAnnounce, Precedes;
      if servers[s].ping.Some? {
        var id := servers[s].ping.value;
        flows := flows[id := flows[id].(state := WaitServerInit, timeout := 0)];
        TableKept(old(Value()), Value());
      }
      var id := CreateAnnounce(s);
      st := SendAgain(s, id, env);
    }

    method NegotiateWithFlow(s: nat, env: Env) returns (st: ServerState)
      requires Wired(Value()) && s < |servers|
      modifies this
      ensures s < |servers| && WithState(Value(), s, st) == PingWithFlow(old(Value()), s, env)
    {
      hide PingAgain, FirstCandidate, Precedes;
      var msg := servers[s].ping;
      if msg.None? {
        msg := GetPingMsg(s);
        if msg.None? {
          servers := servers[s := servers[s].(nextTimeout := 0)];
          return Ping;
        }
      }
      st := SendAgain(s, msg.value, env);
    }

    /** handle_send_all_msgs. */
    method SendAllMsgs(s: nat, now: int, env: Env) returns (st: ServerState)
      requires Wired(Value()) && s < |servers|
      modifies this
      ensures s < |servers| && WithState(Value(), s, st) == OnSendAll(old(Value()), s, now, env)
    {
      hide Sweep, Precedes;
      SweepServers(Tell(s, ServerInitialized), Value(), order, now, env, servers[s].nextTimeout);
      var t := ForeachFlow(Tell(s, ServerInitialized), now, env, servers[s].nextTimeout);
      servers := servers[s := servers[s].(nextTimeout := now)];
      return CalcNearest;
    }

    /** handle_server_restart. */
    method ServerRestart(s: nat, now: int, env: Env) returns (st: ServerState)
      requires Wired(Value()) && s < |servers|
      modifies this
      ensures s < |servers| && WithState(Value(), s, st) == OnRestart(old(Value()), s, now, env)
    {
      hide Sweep, Precedes;
      SweepServers(Tell(s, ServerRestarted), Value(), order, now, env, servers[s].nextTimeout);
      var t := ForeachFlow(Tell(s, ServerRestarted), now, env, servers[s].nextTimeout);
      servers := servers[s := servers[s].(restart := None, nextTimeout := now)];
      return CalcNearest;
    }

    /** handle_server_set_not_working. */
    method ServerSetNotWorking(s: nat, now: int, env: Env) returns (st: ServerState)
      requires Wired(Value()) && s < |servers|
      modifies this
      ensures s < |servers| && WithState(Value(), s, st) == OnSetNotWorking(old(Value()), s, now, env)
    {
      hide Sweep, Precedes;
      SweepServers(Tell(s, Fail), Value(), order, now, env, servers[s].nextTimeout);
      var t := ForeachFlow(Tell(s, Fail), now, env, servers[s].nextTimeout);
      servers := servers[s := servers[s].(nextTimeout := now + RETRY_DELAY)];
      return NotWorking;
    }

    /** handle_wait_io_timeout. */
    method WaitIoTimeout(s: nat, now: int, env: Env) returns (st: ServerState)
      requires Wired(Value()) && s < |servers|
      modifies this
      ensures s < |servers| && WithState(Value(), s, st) == OnTimers(old(Value()), s, now, env)
    {
      hide Sweep, Precedes;
      SweepServers(CheckAll, Value(), order, now, env, 0);
      var t := ForeachFlow(CheckAll, now, env, 0);
      if t != 0 {
        t := t + now;
      }
      servers := servers[s := servers[s].(nextTimeout := t)];
      return WaitIo;
    }

    /** server_process_rcvd_pcp_msg. */
    method ProcessReceived(s: nat, m: Msg, env: Env) returns (f: Option<nat>)
      requires Wired(Value()) && s < |servers|
      modifies this
      ensures f == Target(old(Value()), s, m) && Value() == Process(old(Value()), s, m, env)
    {
      hide Drain, Precedes, Lookup;
      ghost var w := Value();
      var srv := servers[s];
      if m.version == 0 && m.kd.op == OP_ANNOUNCE {
        servers := servers[s := servers[s].(natpmpExt := m.ext.ip[12..])];
        f := if srv.version == 0 && srv.ping.Some? && flows[srv.ping.value].kd.op == OP_ANNOUNCE then srv.ping else None;
      } else {
        f := GetFlow(m.kd, s);
      }
      assert f == Target(w, s, m);
      if f.Some? {
        HandleFlowEvent(f.value, Res(m.result), Some(Resolved(srv, m)), env);
      }
    }

    /** compare_epochs. */
    method CompareEpochs(s: nat, m: Msg) returns (restarted: bool)
      requires s < |servers|
      modifies `servers
      ensures restarted == EpochRestart(old(servers)[s], m)
      ensures servers == old(servers)[s := Baseline(old(servers)[s], m)]
    {
      if servers[s].epoch == NO_EPOCH {
        servers := servers[s := servers[s].(epoch := m.epoch, cepoch := m.receivedTime)];
      }
      var client := Wrap32(m.receivedTime - servers[s].cepoch);
      var server := Wrap32(m.epoch - servers[s].epoch);
      restarted := RestartSeen(client, server);
      assert servers[s] == Baseline(old(servers)[s], m);
    }

    /** handle_wait_io_receive_msg. */
    method ReceiveMsg(s: nat, m: Msg, now: int, env: Env) returns (st: ServerState)
      requires Wired(Value()) && s < |servers|
      modifies this
      ensures s < |servers| && WithState(Value(), s, st) == OnReceive(old(Value()), s, m, now, env)
    {
      hide Process, Target, TableOk, PingsOk, RestartSeen;
      if m.result == UNSUPP_VERSION {
        servers := servers[s := servers[s].(nextTimeout := now, nextVersion := m.version % 256)];
        return VersionNeg;
      }
      if m.result == ADDRESS_MISMATCH {
        servers := servers[s := servers[s].(nextTimeout := now)];
        return SetNotWorking;
      }
      var f := ProcessReceived(s, m, env);
      var restarted := CompareEpochs(s, m);
      if restarted {
        servers := servers[s := servers[s].(epoch := m.epoch, cepoch := m.receivedTime, nextTimeout := now, restart := f)];
        return Restart;
      }
      servers := servers[s := servers[s].(nextTimeout := now)];
      return CalcNearest;
    }

    /** handle_wait_ping_resp_recv. */
    method PingRespReceive(s: nat, m: Msg, now: int, env: Env) returns (st: ServerState)
      requires Wired(Value()) && s < |servers|
      modifies this
      ensures s < |servers| && WithState(Value(), s, st) == OnPingReceive(old(Value()), s, m, now, env)
    {
      hide OnReceive, TableOk, PingsOk;
      st := ReceiveMsg(s, m, now, env);
      assert OnReceive(old(Value()), s, m, now, env).servers[s] == servers[s].(state := st);
      if st == CalcNearest {
        st := SendAll;
      }
    }

    /** handle_server_not_working. */
    method ServerNotWorking(s: nat, ev: ServerEvent, now: int, env: Env) returns (st: ServerState)
      requires Wired(Value()) && s < |servers| && (ev.IoEvent? || Due(servers[s], now))
      requires servers[s].state == NotWorking
      modifies this
      ensures s < |servers| && WithState(Value(), s, st) == OnNotWorking(old(Value()), s, ev, now, env)
    {
      hide Process, Target, TableOk, PingsOk;
      if now < servers[s].nextTimeout {
        if ev.msg.result == UNSUPP_VERSION || ev.msg.result == ADDRESS_MISMATCH {
          return NotWorking;
        }
        var f := ProcessReceived(s, ev.msg, env);
        servers := servers[s := servers[s].(epoch := ev.msg.epoch, cepoch := ev.msg.receivedTime, nextTimeout := now, restart := f)];
        return Restart;
      }
      servers := servers[s := servers[s].(nextTimeout := now)];
      return Reping;
    }

    // ------------------------------------------------------------ driving

    /** run_server_state_machine. */
    method RunServer(s: nat, ev: ServerEvent, now: int, env: Env)
      requires Wired(Value()) && s < |servers| && (ev == Timeout ==> Due(servers[s], now))
      modifies this
      ensures Value() == Run(old(Value()), s, ev, now, env)
    {
      hide TableOk, PingsOk, OnPing, OnPingTimeout, OnVersionNegotiation, OnSendAll, OnRestart, OnSetNotWorking,
           OnTimers, OnReceive, OnPingReceive, OnNotWorking;
      var h := FindServerHandler(servers[s].state, KindOf(ev));
      var st := servers[s].state;
      match h {
        case STerminate =>
          servers := servers[s := servers[s].(nextTimeout := 0)];
          st := Allocated;
        case SPing => st := ServerPing(s, env);
        case SPingTimeout => st := PingRespTimeout(s, now, env);
        case SPingReceive => st := PingRespReceive(s, ev.msg, now, env);
        case SVersionNeg => st := VersionNegotiation(s, env);
        case SSendAll => st := SendAllMsgs(s, now, env);
        case SReceive => st := ReceiveMsg(s, ev.msg, now, env);
        case STimers => st := WaitIoTimeout(s, now, env);
        case SRestart => st := ServerRestart(s, now, env);
        case SReping =>
          servers := servers[s := servers[s].(version := MAX_VERSION, nextTimeout := now)];
          st := Ping;
        case SSetNotWorking => st := ServerSetNotWorking(s, now, env);
        case SNotWorking => st := ServerNotWorking(s, ev, now, env);
        case SIgnore => servers := servers[s := servers[s].(nextTimeout := 0)];
        case SUnexpected =>
          servers := servers[s := servers[s].(nextTimeout := now)];
          st := SetNotWorking;
      }
      servers := servers[s := servers[s].(state := st)];
    }

    /** hserver_iter. */
    method DriveServer(s: nat, ev: ServerEvent, now: int, env: Env, tout: int) returns (t: int)
      requires AtRest(Value()) && s < |servers| && Still(env, now)
      requires ev != Terminate && (ev.IoEvent? ==> ev.msg.version <= MAX_VERSION)
      modifies this
      ensures Value() == Iter(old(Value()), s, ev, now, env)
      ensures t == FoldDeadline(Value().servers[s], now, tout)
    {
      hide TableOk, PingsOk, FlowOk, Run;
      if servers[s].state == Uninit {
        return tout;
      }
      if ev != Timeout {
        ResponseKeeps(Value(), s, ev.msg, now, env);
        RunServer(s, ev, now, env);
      }
      ghost var goal := Settle(Value(), s, now, env);
      while Due(servers[s], now)
        invariant s < |servers| && Driving(Value(), s, now) && servers[s].state != Uninit
        invariant Settle(Value(), s, now, env) == goal
        decreases Rank(servers[s], now, maxPing)
      {
        TimeoutKeeps(Value(), s, now, env);
        RunServer(s, Timeout, now, env);
      }
      t := FoldDeadline(servers[s], now, tout);
    }

    /** pcp_pulse, once a received datagram has been read and addressed. */
    method DoPulse(a: Option<Addressed>, t: Tempo, d: nat -> Tempo, tout: int) returns (r: int)
      requires AtRest(Value()) && Still(t.env, t.now) && Steady(d) && (a.Some? ==> Deliverable(Value(), a.value))
      modifies this
      ensures (Value(), r) == PulseRun(old(Value()), a, t, d, tout)
    {
      hide TableOk, PingsOk, FlowOk, Iter, FoldDeadline;
      ReceivedAtRest(Value(), a, t);
      if a.Some? {
        var ignored := DriveServer(a.value.s, IoEvent(a.value.m), t.now, t.env, 0);
      }
      r := tout;
      var k: nat := 0;
      while k < |servers|
        invariant k <= |servers| && AtRest(Value())
        invariant DriveFrom(Value(), k, d, r) == PulseRun(old(Value()), a, t, d, tout)
      {
        IterKeeps(Value(), k, Timeout, d(k).now, d(k).env);
        r := DriveServer(k, Timeout, d(k).now, d(k).env, r);
        k := k + 1;
      }
    }
  }

  /** A counter of the server is not read by the flow machine. */
  lemma PingCountUnread(w: World, s: nat, srv: Server, id: nat, env: Env)
    requires s < |w.servers| && id in w.flows && srv.state == w.servers[s].state && srv.restart == w.servers[s].restart
    ensures PutServer(HandleFlow(w, id, TimedOut, None, env), s, srv) ==
            HandleFlow(PutServer(w, s, srv), id, TimedOut, None, env)
  {
    hide Drain;
  }

  /** Writing a server without touching its ping keeps the world wired. */
  lemma WiredWrite(w: World, w': World, s: nat)
    requires Wired(w) && s < |w.servers| && w' == w.(servers := w'.servers) && |w'.servers| == |w.servers|
    requires w'.servers == w.servers[s := w'.servers[s]] && w'.servers[s].ping == w.servers[s].ping
    ensures Wired(w')
  {
  }

  /** A sweep changes flows and oracle position only. */
  lemma {:induction false} SweepServers(job: Job, w: World, ids: seq<nat>, now: int, env: Env, tout: int)
    requires Telling(job) && forall id :: id in ids ==> id in w.flows
    ensures var r := Sweep(job, w, ids, now, env, tout).0;
      r == w.(flows := r.flows, tick := r.tick)
    decreases |ids|
  {
    hide Visit;
    if ids != [] {
      VisitKeys(job, w, ids[0], now, env, tout);
      var (w', t) := Visit(job, w, ids[0], now, env, tout);
      SweepServers(job, w', ids[1..], now, env, t);
    }
  }

  /** Setting the ping first makes no difference to a round; a failed round leaves fewer candidates. */
  lemma PingRound(w: World, s: nat, id: nat, env: Env)
    requires TableOk(w) && s < |w.servers| && FirstCandidate(w, s, w.order) == Some(id)
    ensures PingTried(PutServer(w, s, w.servers[s].(ping := Some(id))), s, id, env) == PingTried(w, s, id, env)
    ensures TableOk(PingTried(w, s, id, env))
    ensures PingTried(w, s, id, env).flows[id].state == Failed ==>
            Candidates(PingTried(w, s, id, env), s) < Candidates(w, s)
  {
    PingTwice(w, s, id, env);
    hide PingTried, FirstCandidate;
    var w' := PingTried(w, s, id, env);
    TableKept(w, w');
    FewerCandidates(w, w', s, id);
  }

  lemma PingTwice(w: World, s: nat, id: nat, env: Env)
    requires s < |w.servers| && id in w.flows
    ensures PingTried(PutServer(w, s, w.servers[s].(ping := Some(id))), s, id, env) == PingTried(w, s, id, env)
  {
    hide HandleFlow;
    var w1 := PutServer(w, s, w.servers[s].(ping := Some(id)));
    assert PutServer(w1, s, w1.servers[s].(ping := Some(id))) == w1;
  }

  lemma FewerCandidates(w: World, w': World, s: nat, id: nat)
    requires id in w.flows && Candidate(w.flows[id], s) && w'.flows.Keys == w.flows.Keys
    requires forall j :: j in w.flows && j != id ==> w'.flows[j] == w.flows[j]
    ensures w'.flows[id].state == Failed ==> Candidates(w', s) < Candidates(w, s)
  {
    if w'.flows[id].state == Failed {
      assert id in Candidates(w, s) && id !in Candidates(w', s);
      assert Candidates(w', s) <= Candidates(w, s);
    }
  }

  /** A visit changes one flow and the oracle position only. */
  lemma VisitKeys(job: Job, w: World, id: nat, now: int, env: Env, tout: int)
    requires id in w.flows && Telling(job)
    ensures var r := Visit(job, w, id, now, env, tout).0; r.flows.Keys == w.flows.Keys && r == w.(flows := r.flows, tick := r.tick)
  {
    hide Drain;
  }
}
