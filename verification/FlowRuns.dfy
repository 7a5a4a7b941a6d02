/** What every call of handle_flow_event guarantees, whatever the handlers meet. */
module FlowRuns {
  import opened Base
  import opened FlowKey
  import opened FlowMachine

  /** The largest retransmission delay a waiting flow can have reached at a retry count. */
  function RtBound(retry: nat): nat {
    if retry == 0 then 3000 else if retry == 1 then 6750 else 15187
  }

  /** What holds of every flow in every reachable state. */
  predicate FlowOk(f: Flow) {
    && (f.state == WaitResp ==> f.timeout != 0 && f.rt <= RtBound(f.retry))
    && f.resends <= f.retry
    && f.resends < MRC
  }

  ghost predicate ClockPositive(env: Env) {
    forall t: nat :: env(t).now > 0
  }

  /** The clock does not move while one server is driven. */
  ghost predicate Frozen(env: Env, now: int) {
    forall t: nat :: env(t).now == now
  }

  // ------------------------------------------------------- retransmission

  /** PCP_RT equals the unbounded formula exactly when jitter times the clamped delay fits 32 bits. */
  lemma PcpRtExact(rt: nat, draw: nat)
    requires rt <= MRT
    ensures var d, jitter := Min(Max(2 * rt, 3000), 1_024_000), 9216 - draw % 2048;
      PcpRt(rt, draw) == jitter * d / 8192 <==> jitter * d < TWO32
  {
    var d := Min(Max(2 * rt, IRT), MRT);
    assert rt * 2 % TWO32 == 2 * rt;
    WrapShows(Jitter(draw) * d);
  }

  lemma WrapShows(p: nat)
    ensures p % TWO32 / 8192 == p / 8192 <==> p < TWO32
  {
    if p >= TWO32 {
      assert p / 8192 >= TWO32 / 8192 > p % TWO32 / 8192;
    }
  }

  /** For any delay a waiting flow can have, PCP_RT is the exact jittered doubling. */
  lemma BackoffIsExact(f: Flow, draw: nat)
    requires FlowOk(f) && f.state == WaitResp
    ensures PcpRt(f.rt, draw) == (9216 - draw % 2048) * Max(2 * f.rt, 3000) / 8192
    ensures 7 * Max(2 * f.rt, 3000) / 8 <= PcpRt(f.rt, draw) <= 9 * Max(2 * f.rt, 3000) / 8
  {
    var d := Max(2 * f.rt, IRT);
    assert d <= 30374 && Min(d, MRT) == d && f.rt * 2 % TWO32 == 2 * f.rt;
    BackoffFits(Jitter(draw), d);
    ShiftBounds(Jitter(draw) * d, d);
  }

  lemma BackoffFits(j: nat, d: nat)
    requires 7169 <= j <= 9216 && d <= 30374
    ensures 7169 * d <= j * d <= 9216 * d && j * d % TWO32 == j * d
  {
    MulMonotone(7169, j, d);
    MulMonotone(j, 9216, d);
    var p := j * d;
    assert p < TWO32;
  }

  lemma MulMonotone(a: nat, b: nat, d: nat)
    requires a <= b
    ensures a * d <= b * d
  {
    assert (b - a) * d >= 0;
  }

  lemma ShiftBounds(p: nat, d: nat)
    requires 7169 * d <= p <= 9216 * d
    ensures 7 * d / 8 <= p / 8192 <= 9 * d / 8
  {
    var low, high := 7 * d / 8, p / 8192;
    assert 8 * low <= 7 * d;
    assert 8192 * low <= 7168 * d <= p;
    assert 8192 * high <= p <= 9216 * d;
  }

  // -------------------------------------------------------- every drain

  /** At most four handlers run, whatever the start, the event and what the handlers meet. */
  lemma {:induction false} DrainEnds(f: Flow, ev: FlowEvent, c: Ctx, m: Option<Msg>, env: Env, tick: nat)
    requires ev.Res? ==> m.Some?
    ensures Drain(f, ev, c, m, env, tick).runs <= DrainRank(f.state, ev) <= 4
    decreases DrainRank(f.state, ev)
  {
    hide TakeTurn, SameIdentity;
    var r := TakeTurn(f, ev, c, m, env(tick));
    TurnCosts(f, ev, c, m, env(tick));
    if r.Ran? && r.ev != Nothing {
      DrainEnds(r.flow, r.ev, c, m, env, tick + 1);
    }
  }

  lemma TurnCosts(f: Flow, ev: FlowEvent, c: Ctx, m: Option<Msg>, io: Io)
    requires ev.Res? ==> m.Some?
    ensures TakeTurn(f, ev, c, m, io).Ran? ==> DrainRank(f.state, ev) >= 1
  {
    hide RunHandler, SameIdentity;
  }

  /** An event with a row never parks a flow in a sending state. */
  lemma {:induction false} DrainLeavesSending(f: Flow, ev: FlowEvent, c: Ctx, m: Option<Msg>, env: Env, tick: nat)
    requires (ev.Res? ==> m.Some?) && NextState(f.state, ev).Some?
    ensures Drain(f, ev, c, m, env, tick).flow.state != Send
    ensures Drain(f, ev, c, m, env, tick).flow.state != SendRenew
    decreases DrainRank(f.state, ev)
  {
    hide TakeTurn, SameIdentity, NextState;
    var r := TakeTurn(f, ev, c, m, env(tick));
    TurnGoesOn(f, ev, c, m, env(tick));
    if r.Ran? && r.ev != Nothing {
      DrainLeavesSending(r.flow, r.ev, c, m, env, tick + 1);
    }
  }

  /** A turn that leaves a flow in a sending state returns an event that has a row there. */
  lemma TurnGoesOn(f: Flow, ev: FlowEvent, c: Ctx, m: Option<Msg>, io: Io)
    requires (ev.Res? ==> m.Some?) && NextState(f.state, ev).Some?
    ensures var r := TakeTurn(f, ev, c, m, io);
      (r.Ran? && r.ev != Nothing ==> NextState(r.flow.state, r.ev).Some?) &&
      (r.flow.state == Send || r.flow.state == SendRenew ==> r.Ran? && r.ev != Nothing)
  {
    hide RunHandler, SameIdentity;
  }

  /** What must hold before `ev` is fed to f: a flow about to wait already meets the waiting bounds. */
  predicate FeedOk(f: Flow, ev: FlowEvent) {
    FlowOk(f) && (f.state == Send && ev == MsgSent ==> FlowOk(f.(state := WaitResp)))
  }

  lemma TurnKeepsFlowOk(f: Flow, ev: FlowEvent, c: Ctx, m: Option<Msg>, io: Io)
    requires ev.Res? ==> m.Some?
    requires FeedOk(f, ev) && io.now > 0
    ensures var r := TakeTurn(f, ev, c, m, io); FlowOk(r.flow) && (r.Ran? ==> FeedOk(r.flow, r.ev))
  {
    hide SameIdentity;
    if f.state == WaitResp {
      BackoffIsExact(f, io.draw);
    }
  }

  /** Every drain keeps FlowOk: timers of waiting flows, the backoff ceiling, the resend count. */
  lemma {:induction false} DrainKeepsFlowOk(f: Flow, ev: FlowEvent, c: Ctx, m: Option<Msg>, env: Env, tick: nat)
    requires ev.Res? ==> m.Some?
    requires FeedOk(f, ev) && ClockPositive(env)
    ensures FlowOk(Drain(f, ev, c, m, env, tick).flow)
    decreases DrainRank(f.state, ev)
  {
    hide TakeTurn, SameIdentity, FlowOk, FeedOk;
    var r := TakeTurn(f, ev, c, m, env(tick));
    TurnKeepsFlowOk(f, ev, c, m, env(tick));
    if r.Ran? && r.ev != Nothing {
      DrainKeepsFlowOk(r.flow, r.ev, c, m, env, tick + 1);
    }
  }

  /** Four handlers do run: a failed renewal whose fresh request outlives its timer. */
  lemma FourHandlersReached(f: Flow, env: Env)
    requires f.state == WaitRenew
    requires !env(0).ok && env(1).ok && env(2).now > env(1).now + IRT * 1000
    ensures Drain(f, TimedOut, Ctx(true, false), None, env, 0).runs == 4
    ensures Drain(f, TimedOut, Ctx(true, false), None, env, 0).flow.state == Failed
  {
    hide SameIdentity;
    var g := f.(state := Send, rt := IRT, timeout := env(1).now + IRT * 1000);
    assert Drain(g.(state := WaitResp), Fail, Ctx(true, false), None, env, 3).runs == 1;
    assert Drain(g, MsgSent, Ctx(true, false), None, env, 2).runs == 2;
    assert Drain(f.(state := SendRenew), Fail, Ctx(true, false), None, env, 1).runs == 3;
  }

  /** A response changes nothing exactly when the flow awaits none or its result code has no row: 6, or above 13. */
  lemma UnknownResultsChangeNothing(f: Flow, m: Msg, c: Ctx, env: Env, tick: nat)
    ensures Drain(f, Res(m.result), c, Some(m), env, tick) == Drained(f, tick, 0) <==>
            (f.state != WaitResp && f.state != WaitRenew) || m.result == 6 || m.result > 13
  {
    hide RunHandler, SameIdentity;
  }

  // ------------------------------------------------- where a flow ends up

  /** States in which a flow claims a granted mapping. */
  predicate Renewing(st: FlowState) {
    st == WaitRenew || st == SendRenew
  }

  /** Any claim of a mapping in g was already there in f, with the same mapping. */
  predicate KeepsGrant(f: Flow, g: Flow) {
    Renewing(g.state) ==> Renewing(f.state) && g.ext == f.ext && g.recvEnd == f.recvEnd
  }

  /** Without a response, and unless it exposed a restart, a flow gains no mapping. */
  lemma {:induction false} DrainKeepsGrant(f: Flow, ev: FlowEvent, c: Ctx, m: Option<Msg>, env: Env, tick: nat)
    requires !ev.Res? && !c.trigger && ev != Ignored
    ensures KeepsGrant(f, Drain(f, ev, c, m, env, tick).flow)
    decreases DrainRank(f.state, ev)
  {
    hide TakeTurn, SameIdentity;
    var r := TakeTurn(f, ev, c, m, env(tick));
    TurnKeepsGrant(f, ev, c, m, env(tick));
    if r.Ran? && r.ev != Nothing {
      DrainKeepsGrant(r.flow, r.ev, c, m, env, tick + 1);
    }
  }

  lemma TurnKeepsGrant(f: Flow, ev: FlowEvent, c: Ctx, m: Option<Msg>, io: Io)
    requires !ev.Res? && !c.trigger && ev != Ignored
    ensures var r := TakeTurn(f, ev, c, m, io); KeepsGrant(f, r.flow) && (r.Ran? ==> r.ev != Ignored)
  {
    hide SameIdentity;
  }

  /** The second in which a lifetime granted by m ends: counted from its receipt, up to the largest 64-bit time. */
  function GrantEnd(m: Msg): int {
    Min(m.receivedTime + m.lifetime, 0x7fff_ffff_ffff_ffff)
  }

  /** The mapping in g is the one message m grants. */
  predicate GrantedBy(g: Flow, m: Msg) {
    g.recvEnd == GrantEnd(m) && (g.kd.op == OP_MAP || g.kd.op == OP_PEER ==> g.ext == m.ext)
  }

  /** A response gives a mapping only with result 0, to a flow that awaits it, and from its own fields. */
  lemma {:induction false} ResponseGrant(f: Flow, m: Msg, c: Ctx, env: Env, tick: nat)
    requires !c.trigger
    ensures var g := Drain(f, Res(m.result), c, Some(m), env, tick).flow;
      KeepsGrant(f, g) ||
      (m.result == 0 && (f.state == WaitResp || f.state == WaitRenew) && g.state == WaitRenew && GrantedBy(g, m))
  {
    hide TakeTurn, SameIdentity;
    var r := TakeTurn(f, Res(m.result), c, Some(m), env(tick));
    ResponseTurn(f, m, c, env(tick));
    if r.Ran? && r.ev != Nothing {
      DrainKeepsGrant(r.flow, r.ev, c, Some(m), env, tick + 1);
    }
  }

  lemma ResponseTurn(f: Flow, m: Msg, c: Ctx, io: Io)
    requires !c.trigger
    ensures var r := TakeTurn(f, Res(m.result), c, Some(m), io);
      (KeepsGrant(f, r.flow) && (r.Ran? ==> r.ev != Ignored)) ||
      (r == Ran(r.flow, Nothing) && m.result == 0 && (f.state == WaitResp || f.state == WaitRenew) &&
       r.flow.state == WaitRenew && GrantedBy(r.flow, m))
  {
    hide SameIdentity;
  }

  predicate SameMapping(f: Flow, g: Flow) {
    g.ext == f.ext && g.recvEnd == f.recvEnd
  }

  /** Without a response a flow's mapping is never rewritten. */
  lemma {:induction false} DrainKeepsMapping(f: Flow, ev: FlowEvent, c: Ctx, m: Option<Msg>, env: Env, tick: nat)
    requires !ev.Res?
    ensures SameMapping(f, Drain(f, ev, c, m, env, tick).flow)
    decreases DrainRank(f.state, ev)
  {
    hide TakeTurn, SameIdentity;
    var r := TakeTurn(f, ev, c, m, env(tick));
    TurnKeepsMapping(f, ev, c, m, env(tick));
    if r.Ran? && r.ev != Nothing {
      DrainKeepsMapping(r.flow, r.ev, c, m, env, tick + 1);
    }
  }

  lemma TurnKeepsMapping(f: Flow, ev: FlowEvent, c: Ctx, m: Option<Msg>, io: Io)
    requires !ev.Res?
    ensures SameMapping(f, TakeTurn(f, ev, c, m, io).flow)
  {
    hide SameIdentity;
  }

  /** A response rewrites it only by granting one, to a flow that awaits it. */
  lemma ResponseMapping(f: Flow, m: Msg, c: Ctx, env: Env, tick: nat)
    ensures var g := Drain(f, Res(m.result), c, Some(m), env, tick).flow;
      SameMapping(f, g) || (m.result == 0 && (f.state == WaitResp || f.state == WaitRenew) && GrantedBy(g, m))
  {
    hide TakeTurn, SameIdentity;
    var r := TakeTurn(f, Res(m.result), c, Some(m), env(tick));
    ResponseTurnMapping(f, m, c, env(tick));
    if r.Ran? && r.ev != Nothing {
      DrainKeepsMapping(r.flow, r.ev, c, Some(m), env, tick + 1);
    }
  }

  lemma ResponseTurnMapping(f: Flow, m: Msg, c: Ctx, io: Io)
    ensures var r := TakeTurn(f, Res(m.result), c, Some(m), io);
      SameMapping(f, r.flow) ||
      (r == Ran(r.flow, Nothing) && m.result == 0 && (f.state == WaitResp || f.state == WaitRenew) && GrantedBy(r.flow, m))
  {
    hide SameIdentity;
  }

  /** A success response is always taken by a flow that awaits one. */
  lemma SuccessIsTaken(f: Flow, m: Msg, c: Ctx, env: Env, tick: nat)
    requires m.result == 0 && (f.state == WaitResp || f.state == WaitRenew)
    ensures var g := Drain(f, Res(0), c, Some(m), env, tick).flow; g.state == WaitRenew && GrantedBy(g, m)
  {
  }

  /** NETWORK_FAILURE, NO_RESOURCES, USER_EX_QUOTA and EXCESSIVE_REMOTE_PEERS, section 7.4 of RFC 6887. */
  predicate Pauses(result: nat) {
    result == 7 || result == 8 || result == 10 || result == 13
  }

  /** A flow that holds a mapping and is asked to pause: it renews at once. */
  predicate RenewsAtOnce(f: Flow, m: Msg) {
    f.state == WaitRenew && Pauses(m.result)
  }

  /** The flow after any other response, in closed form. */
  function AnsweredAs(f: Flow, m: Msg, now: int): (g: Flow) {
    if (f.state != WaitResp && f.state != WaitRenew) || m.result == 6 || m.result > 13 then f
    else if m.result == 0 then
      f.(state := WaitRenew, recvEnd := GrantEnd(m), result := 0,
         ext := if f.kd.op == OP_MAP || f.kd.op == OP_PEER then m.ext else f.ext,
         timeout := if m.lifetime == 0 then 0 else now + HalfLeft(GrantEnd(m), now) * SECOND)
    else if Pauses(m.result) then
      f.(state := WaitShortLife, result := m.result, timeout := now + m.lifetime * SECOND)
    else f.(state := if m.result == 1 then WaitServerInit else Failed, result := m.result, timeout := 0)
  }

  /** Such a response leaves the flow as told, whatever the sends meet. */
  lemma ResponseAnswers(f: Flow, m: Msg, c: Ctx, env: Env, tick: nat, now: int)
    requires !RenewsAtOnce(f, m) && Frozen(env, now)
    ensures Drain(f, Res(m.result), c, Some(m), env, tick).flow == AnsweredAs(f, m, now)
  {
    hide TakeTurn, SameIdentity, AnsweredAs;
    AnswerTurn(f, m, c, env(tick));
  }

  lemma AnswerTurn(f: Flow, m: Msg, c: Ctx, io: Io)
    requires !RenewsAtOnce(f, m)
    ensures var g := AnsweredAs(f, m, io.now); TakeTurn(f, Res(m.result), c, Some(m), io) in {Stays(g), Ran(g, Nothing)}
  {
    hide SameIdentity, HalfLeft, OnSend, OnResend, OnSendRenew;
  }

  /** The flow that a renewal made at once leaves, by what its sends meet. */
  function AskedToPause(f: Flow, m: Msg, first: Io, second: Io, now: int): (g: Flow) {
    if first.ok && HalfLeft(f.recvEnd, now) != 0 then f.(timeout := now + HalfLeft(f.recvEnd, now) * SECOND)
    else if second.ok then f.(state := WaitResp, rt := IRT, timeout := now + IRT * 1000)
    else f.(state := Failed, result := m.result, timeout := 0)
  }

  lemma PauseRenews(f: Flow, m: Msg, c: Ctx, env: Env, tick: nat, now: int)
    requires RenewsAtOnce(f, m) && c.alive && !c.trigger && Frozen(env, now)
    ensures Drain(f, Res(m.result), c, Some(m), env, tick).flow == AskedToPause(f, m, env(tick), env(tick + 1), now)
  {
    hide SameIdentity, HalfLeft, OnResend, OnSuccess, ShortLifeError;
    var (g, ev) := OnSendRenew(f.(state := SendRenew), c, env(tick));
    assert TakeTurn(f, Res(m.result), c, Some(m), env(tick)) == Ran(g, ev) by { PauseTurn(f, m, c, env(tick)); }
    if ev == MsgSent {
      assert Drain(g, MsgSent, c, Some(m), env, tick + 1).flow == g.(state := WaitRenew);
    } else {
      var (h, ev') := OnSend(g.(state := Send), c, env(tick + 1));
      assert TakeTurn(g, Fail, c, Some(m), env(tick + 1)) == Ran(h, ev');
      PauseFallsBack(h, ev', m, c, env, tick + 2, now);
    }
  }

  lemma PauseTurn(f: Flow, m: Msg, c: Ctx, io: Io)
    requires RenewsAtOnce(f, m)
    ensures var (g, ev) := OnSendRenew(f.(state := SendRenew), c, io); TakeTurn(f, Res(m.result), c, Some(m), io) == Ran(g, ev)
  {
    hide SameIdentity, HalfLeft, OnResend, OnSuccess, OnSend;
  }

  lemma PauseFallsBack(h: Flow, ev: FlowEvent, m: Msg, c: Ctx, env: Env, tick: nat, now: int)
    requires h.state == Send && (ev == Fail || (ev == MsgSent && h.timeout >= now)) && Frozen(env, now)
    ensures Drain(h, ev, c, Some(m), env, tick).flow ==
            if ev == Fail then h.(state := Failed, timeout := 0, result := m.result) else h.(state := WaitResp)
  {
    hide SameIdentity;
  }

  /** Under a still clock a (re)send leaves the flow waiting with a future timer, or failed with none. */
  predicate SentOrFailed(g: Flow, now: int) {
    (g.state == WaitResp && g.timeout > now) || (g.state == Failed && g.timeout == 0)
  }

  /**
   After a handler of the sending state, whatever the clock does: a flow that was sent waits, unless
   its timer has already passed; otherwise it fails and is cleared.
   */
  lemma SentEnds(g: Flow, ev: FlowEvent, c: Ctx, env: Env, tick: nat)
    requires g.state == Send && (ev == Fail || ev == MsgSent)
    ensures Drain(g, ev, c, None, env, tick).flow ==
            if ev == Fail || g.timeout < env(tick).now then g.(state := Failed, timeout := 0) else g.(state := WaitResp)
  {
    hide SameIdentity;
    if ev == MsgSent && g.timeout < env(tick).now {
      var h := g.(state := WaitResp);
      assert Drain(h, Fail, c, None, env, tick + 1).flow == h.(state := Failed, timeout := 0);
    }
  }

  /** The same under a still clock. */
  lemma SendTail(g: Flow, ev: FlowEvent, c: Ctx, env: Env, tick: nat, now: int)
    requires g.state == Send && (ev == Fail || (ev == MsgSent && g.timeout >= now)) && Frozen(env, now)
    ensures Drain(g, ev, c, None, env, tick).flow ==
            if ev == Fail then g.(state := Failed, timeout := 0) else g.(state := WaitResp)
  {
    SentEnds(g, ev, c, env, tick);
  }

  /**
   Told to send, a flow ends waiting exactly when its handler sent the message and the timer it set
   has not passed by the time the wait begins; otherwise it ends failed, with no timer.
   */
  lemma SendOutcome(f: Flow, ev: FlowEvent, c: Ctx, env: Env, tick: nat)
    requires !ev.Res? && NextState(f.state, ev) == Some(Send) && (c.trigger ==> f.state == WaitResp)
    ensures var (g, ev') := RunHandler(if f.state == WaitResp then HResend else HSend, f.(state := Send), c, None, env(tick));
      Drain(f, ev, c, None, env, tick).flow ==
      if ev' == MsgSent && g.timeout >= env(tick + 1).now then g.(state := WaitResp) else g.(state := Failed, timeout := 0)
  {
    hide SameIdentity, PcpRt, NextState;
    var (g, ev') := RunHandler(if f.state == WaitResp then HResend else HSend, f.(state := Send), c, None, env(tick));
    SentEnds(g, ev', c, env, tick + 1);
  }

  /** A timed renewal goes out and the claim stays, or it fails. */
  lemma RenewalRuns(f: Flow, c: Ctx, env: Env, tick: nat)
    requires Renewing(f.state)
    ensures var (g, ev) := OnSendRenew(f.(state := SendRenew), c, env(tick));
      Drain(f, TimedOut, c, None, env, tick).flow ==
      if ev == MsgSent then g.(state := WaitRenew) else Drain(g, Fail, c, None, env, tick + 1).flow
  {
    hide SameIdentity, HalfLeft, OnResend, OnSuccess, OnSend;
    var (g, ev) := OnSendRenew(f.(state := SendRenew), c, env(tick));
    assert TakeTurn(f, TimedOut, c, None, env(tick)) == Ran(g, ev);
    if ev == MsgSent {
      assert Drain(g, MsgSent, c, None, env, tick + 1).flow == g.(state := WaitRenew);
    }
  }

  /** A claim that fails falls back to a fresh request; a restart trigger is claimed again. */
  lemma FallBackRuns(f: Flow, c: Ctx, env: Env, tick: nat)
    requires Renewing(f.state)
    ensures var (g, ev) := OnSend(f.(state := Send), c, env(tick));
      Drain(f, Fail, c, None, env, tick).flow ==
      if ev == Ignored then g.(state := WaitRenew)
      else if ev == Fail || g.timeout < env(tick + 1).now then g.(state := Failed, timeout := 0)
      else g.(state := WaitResp)
  {
    hide SameIdentity, OnResend, OnSuccess, OnSendRenew;
    var (g, ev) := OnSend(f.(state := Send), c, env(tick));
    assert TakeTurn(f, Fail, c, None, env(tick)) == Ran(g, ev);
    if ev == Ignored {
      assert Drain(g, Ignored, c, None, env, tick + 1).flow == g.(state := WaitRenew);
    } else {
      SentEnds(g, ev, c, env, tick + 1);
    }
  }

  /** The flow that a restart makes of f, by what its one send meets: sent again, or failed. */
  function ResentAs(f: Flow, io: Io, now: int): (g: Flow) {
    if f.state == WaitResp then
      if f.retry + 1 < MRC && io.ok then
        f.(retry := f.retry + 1, resends := f.resends + 1, rt := PcpRt(f.rt, io.draw),
           timeout := now + PcpRt(f.rt, io.draw) * 1000)
      else f.(retry := f.retry + 1, state := Failed, timeout := 0)
    else if io.ok then f.(state := WaitResp, rt := IRT, timeout := now + IRT * 1000)
    else f.(state := Failed, timeout := 0)
  }

  lemma RestartResends(f: Flow, c: Ctx, env: Env, tick: nat, now: int)
    requires c.alive && (c.trigger ==> f.state == WaitResp) && Frozen(env, now)
    ensures Drain(f, ServerRestarted, c, None, env, tick).flow == ResentAs(f, env(tick), now)
  {
    hide SameIdentity, PcpRt, Drain;
    SendOutcome(f, ServerRestarted, c, env, tick);
  }

  lemma ResentWaits(f: Flow, io: Io, now: int)
    requires FlowOk(f)
    ensures SentOrFailed(ResentAs(f, io, now), now)
  {
    hide PcpRt;
    if f.state == WaitResp {
      BackoffIsExact(f, io.draw);
    }
  }

  lemma DrainSends(f: Flow, ev: FlowEvent, c: Ctx, env: Env, tick: nat, now: int)
    requires ev == SendNow || ev == ServerRestarted
    requires FlowOk(f) && (c.trigger ==> f.state == WaitResp) && Frozen(env, now)
    ensures SentOrFailed(Drain(f, ev, c, None, env, tick).flow, now)
  {
    hide SameIdentity, PcpRt, Drain;
    SendOutcome(f, ev, c, env, tick);
    if f.state == WaitResp {
      BackoffIsExact(f, env(tick).draw);
    }
  }

  /**
   The flow that exposed a restart is not resent: from any state but WaitResp it is
   declared granted with its old mapping, even if it had failed.
   */
  lemma RestartTriggerClaimsSuccess(f: Flow, env: Env, tick: nat)
    requires f.state != WaitResp
    ensures Drain(f, ServerRestarted, Ctx(true, true), None, env, tick).flow == f.(state := WaitRenew)
  {
    assert Drain(f.(state := Send), Ignored, Ctx(true, true), None, env, tick + 1).flow == f.(state := WaitRenew);
  }

  /** The flow that fev_failed makes of f: a mapping falls back to a fresh request, anything else fails. */
  function FailedAs(f: Flow, io: Io, now: int): (g: Flow) {
    if Renewing(f.state) && io.ok then f.(state := WaitResp, rt := IRT, timeout := now + IRT * 1000)
    else f.(state := Failed, timeout := 0)
  }

  /** fev_failed ends a flow exactly when it holds no mapping or its fresh request cannot go out. */
  lemma FailEventOutcome(f: Flow, c: Ctx, env: Env, tick: nat, now: int)
    requires !c.trigger && Frozen(env, now)
    ensures Drain(f, Fail, c, None, env, tick).flow == FailedAs(f, env(tick).(ok := c.alive && env(tick).ok), now)
    ensures forall io :: SentOrFailed(FailedAs(f, io, now), now)
  {
    if Renewing(f.state) {
      FallBackRuns(f, c, env, tick);
    }
  }

  /** A flow that its server has not answered, or that never reached it. */
  predicate Unsent(st: FlowState) {
    st == WaitServerInit || st == WaitResp || st == Send
  }

  /** Told that its server is initialised, a flow that has not been answered is sent, once; any other stays. */
  lemma InitializedSends(f: Flow, c: Ctx, env: Env, tick: nat, now: int)
    requires c.alive && !c.trigger && Frozen(env, now)
    ensures Drain(f, ServerInitialized, c, None, env, tick).flow == if Unsent(f.state) then ResentAs(f, env(tick), now) else f
  {
    hide SameIdentity, PcpRt;
    if Unsent(f.state) {
      hide Drain;
      SendOutcome(f, ServerInitialized, c, env, tick);
    }
  }
}
