/** What a timer pass does to each flow, told from the state before it and from what its sends meet. */
module TimerPass {
  import opened Base
  import opened FlowMachine
  import opened FlowRuns
  import opened ServerMachine
  import opened ServerRuns

  predicate Armed(timeout: int, now: int) {
    timeout > now
  }

  /** A timer set at or before now. */
  predicate Overdue(timeout: int, now: int) {
    timeout != 0 && timeout <= now
  }

  /** What the first two handlers of a timeout meet. */
  datatype Luck = Luck(first: Io, second: Io)

  predicate At(k: Luck, now: int) {
    k.first.now == now && k.second.now == now
  }

  // ------------------------------------------------------ one timeout

  const FRESH: int := IRT * 1000

  /** The timer that a timeout leaves a flow with, in closed form. */
  function TimeoutLeaves(f: Flow, alive: bool, k: Luck, now: int): int {
    if Parked(f.state) then f.timeout
    else if !alive then 0
    else if f.state == WaitResp then
      if f.retry + 1 < MRC && k.first.ok then now + PcpRt(f.rt, k.first.draw) * 1000 else 0
    else if Renewing(f.state) then
      if k.first.ok && HalfLeft(f.recvEnd, now) != 0 then now + HalfLeft(f.recvEnd, now) * SECOND
      else if k.second.ok then now + FRESH else 0
    else if k.first.ok then now + FRESH else 0
  }

  lemma TimedOutLeaves(f: Flow, c: Ctx, env: Env, tick: nat, now: int)
    requires !c.trigger && Frozen(env, now)
    ensures Drain(f, TimedOut, c, None, env, tick).flow.timeout ==
            TimeoutLeaves(f, c.alive, Luck(env(tick), env(tick + 1)), now)
  {
    hide SameIdentity, PcpRt, HalfLeft;
    if Renewing(f.state) {
      hide Drain;
      RenewalRuns(f, c, env, tick);
      FallBackRuns(OnSendRenew(f.(state := SendRenew), c, env(tick)).0, c, env, tick + 1);
    } else if !Parked(f.state) {
      hide Drain;
      SendOutcome(f, TimedOut, c, env, tick);
    }
  }

  /** The flow that a timeout leaves, in closed form, while its server is in use. */
  function TimedOutAs(f: Flow, k: Luck, now: int): (g: Flow) {
    var sent := f.(state := WaitResp, rt := IRT, timeout := now + FRESH);
    var failed := f.(state := Failed, timeout := 0);
    if Parked(f.state) then f
    else if f.state == WaitResp then ResentAs(f, k.first, now)
    else if Renewing(f.state) then
      if k.first.ok && HalfLeft(f.recvEnd, now) != 0
      then f.(state := WaitRenew, timeout := now + HalfLeft(f.recvEnd, now) * SECOND)
      else if k.second.ok then sent else failed
    else if k.first.ok then sent else failed
  }

  lemma TimedOutEnds(f: Flow, c: Ctx, env: Env, tick: nat, now: int)
    requires c.alive && !c.trigger && Frozen(env, now)
    ensures Drain(f, TimedOut, c, None, env, tick).flow == TimedOutAs(f, Luck(env(tick), env(tick + 1)), now)
  {
    hide SameIdentity, PcpRt, HalfLeft;
    if Renewing(f.state) {
      hide Drain;
      RenewalRuns(f, c, env, tick);
      FallBackRuns(OnSendRenew(f.(state := SendRenew), c, env(tick)).0, c, env, tick + 1);
    } else if !Parked(f.state) {
      hide Drain;
      SendOutcome(f, TimedOut, c, env, tick);
    }
  }

  // ---------------------------------------------------- before the pass

  predicate Alive(w: World, f: Flow) {
    f.server < |w.servers| && w.servers[f.server].state != Uninit
  }

  /** A renewal whose timer would be set in the past. */
  predicate PastRenewal(f: Flow, now: int) {
    Renewing(f.state) && HalfLeft(f.recvEnd, now) < 0 && now + HalfLeft(f.recvEnd, now) * SECOND != 0
  }

  /** The timer may be overdue still after the pass. */
  predicate MayStay(f: Flow, alive: bool, now: int) {
    Overdue(f.timeout, now) && (Parked(f.state) || (alive && PastRenewal(f, now)))
  }

  /** The pass may leave the flow with timer t ahead. */
  ghost predicate MayArm(f: Flow, alive: bool, now: int, t: int) {
    Armed(t, now) &&
    if !Overdue(f.timeout, now) then t == f.timeout
    else
      && alive && !Parked(f.state)
      && if f.state == WaitResp then f.retry + 1 < MRC && exists draw :: t == now + PcpRt(f.rt, draw) * 1000
         else t == now + FRESH || (Renewing(f.state) && t == now + HalfLeft(f.recvEnd, now) * SECOND)
  }

  /** The timer that a pass leaves a flow with. */
  function TimerLeft(f: Flow, alive: bool, k: Luck, now: int): int {
    if Overdue(f.timeout, now) then TimeoutLeaves(f, alive, k, now) else f.timeout
  }

  /**
   A timer is overdue after its turn exactly when it was before, and no timeout moves its flow on
   or the flow's renewal goes out after the mapping has expired.
   */
  lemma StaysOverdue(f: Flow, alive: bool, k: Luck, now: int)
    requires FlowOk(f) && now > 0
    ensures Overdue(TimerLeft(f, alive, k, now), now) <==> MayStay(f, alive, now) && (Parked(f.state) || k.first.ok)
  {
    hide PcpRt, HalfLeft;
    if f.state == WaitResp {
      BackoffIsExact(f, k.first.draw);
    }
  }

  lemma LeftMayArm(f: Flow, alive: bool, k: Luck, now: int)
    requires FlowOk(f) && now > 0 && Armed(TimerLeft(f, alive, k, now), now)
    ensures MayArm(f, alive, now, TimerLeft(f, alive, k, now))
  {
    hide PcpRt, HalfLeft, FlowOk;
  }

  /** What may happen to one flow can be brought about. */
  lemma LuckFor(f: Flow, alive: bool, now: int, t: int) returns (k: Luck)
    requires MayArm(f, alive, now, t)
    ensures At(k, now) && TimerLeft(f, alive, k, now) == t
  {
    hide PcpRt, HalfLeft;
    if Overdue(f.timeout, now) && f.state == WaitResp {
      var draw :| t == now + PcpRt(f.rt, draw) * 1000;
      k := Luck(Io(true, draw, now), Io(true, 0, now));
    } else {
      k := Luck(Io(t != now + FRESH || !Renewing(f.state), 0, now), Io(true, 0, now));
    }
  }

  // ------------------------------------------------------- one visit

  lemma VisitLeaves(w: World, id: nat, now: int, env: Env, tout: int)
    requires WorldOk(w) && Quiet(w, None) && id in w.flows && Still(env, now)
    ensures var r := Visit(CheckAll, w, id, now, env, tout).0;
      id in r.flows && r.flows[id].timeout ==
      TimerLeft(w.flows[id], Alive(w, w.flows[id]), Luck(env(w.tick), env(w.tick + 1)), now)
  {
    hide Drain, TableOk, PingsOk, FlowOk, TimeoutLeaves;
    TimedOutLeaves(w.flows[id], CtxOf(w, w.flows[id]), env, w.tick, now);
  }

  // -------------------------------------- what depends on which outcome

  lemma {:induction false} DrainAgrees(f: Flow, ev: FlowEvent, c: Ctx, env: Env, env': Env, tick: nat)
    requires !ev.Res?
    requires forall t: nat :: tick <= t < tick + Drain(f, ev, c, None, env, tick).runs ==> env(t) == env'(t)
    ensures Drain(f, ev, c, None, env', tick) == Drain(f, ev, c, None, env, tick)
    decreases DrainRank(f.state, ev)
  {
    hide RunHandler, SameIdentity, NextState, HandlerFor, DrainRank;
    var t := TakeTurn(f, ev, c, None, env(tick));
    if t.Ran? && t.ev != Nothing {
      DrainAgrees(t.flow, t.ev, c, env, env', tick + 1);
    }
  }

  lemma VisitAgrees(w: World, id: nat, now: int, env: Env, env': Env, tout: int)
    requires id in w.flows
    requires forall t: nat :: w.tick <= t < Visit(CheckAll, w, id, now, env, tout).0.tick ==> env(t) == env'(t)
    ensures Visit(CheckAll, w, id, now, env', tout) == Visit(CheckAll, w, id, now, env, tout)
    ensures Visit(CheckAll, w, id, now, env, tout).0.tick >= w.tick
  {
    hide Drain;
    if Overdue(w.flows[id].timeout, now) {
      DrainAgrees(w.flows[id], TimedOut, CtxOf(w, w.flows[id]), env, env', w.tick);
    }
  }

  lemma {:induction false} SweepAgrees(w: World, ids: seq<nat>, now: int, env: Env, env': Env, tout: int)
    requires forall id :: id in ids ==> id in w.flows
    requires forall t: nat :: w.tick <= t ==> env(t) == env'(t)
    ensures Sweep(CheckAll, w, ids, now, env', tout) == Sweep(CheckAll, w, ids, now, env, tout)
    decreases |ids|
  {
    hide Drain;
    if ids != [] {
      VisitAgrees(w, ids[0], now, env, env', tout);
      var (w', t) := Visit(CheckAll, w, ids[0], now, env, tout);
      SweepAgrees(w', ids[1..], now, env, env', t);
    }
  }

  // -------------------------------------------------------- a whole pass

  ghost predicate Lucky(w: World, r: World, ids: seq<nat>, now: int, pick: nat -> Luck) {
    forall id :: id in ids ==>
      id in w.flows && id in r.flows &&
      r.flows[id].timeout == TimerLeft(w.flows[id], Alive(w, w.flows[id]), pick(id), now)
  }

  lemma LuckyStep(w: World, w': World, r: World, ids: seq<nat>, now: int, pick: nat -> Luck)
    requires ids != [] && ids[0] in w.flows && ids[0] !in ids[1..] && w'.servers == w.servers
    requires forall j :: j in w'.flows && j != ids[0] ==> j in w.flows && w'.flows[j] == w.flows[j]
    requires Lucky(w', r, ids[1..], now, pick) && Lucky(w, r, [ids[0]], now, pick)
    ensures Lucky(w, r, ids, now, pick)
  {
    hide TimerLeft;
    forall j | j in ids
      ensures j in w.flows && j in r.flows
      ensures r.flows[j].timeout == TimerLeft(w.flows[j], Alive(w, w.flows[j]), pick(j), now)
    {
      assert j == ids[0] || j in ids[1..];
      assert ids[0] in [ids[0]];
    }
  }

  /** The first visit under one oracle, the rest of the pass under another. */
  lemma GluedLuck(w: World, ids: seq<nat>, now: int, tout: int, here: Env, later: Env, env: Env, pick: nat -> Luck)
    requires WorldOk(w) && Quiet(w, None) && Still(here, now) && Still(later, now)
    requires ids != [] && ids[0] !in ids[1..] && forall id :: id in ids ==> id in w.flows
    requires pick(ids[0]) == Luck(here(w.tick), here(w.tick + 1))
    requires var (w', t) := Visit(CheckAll, w, ids[0], now, here, tout);
      (forall id :: id in ids[1..] ==> id in w'.flows) &&
      Lucky(w', Sweep(CheckAll, w', ids[1..], now, later, t).0, ids[1..], now, pick) &&
      forall n: nat :: env(n) == if n < w'.tick then here(n) else later(n)
    ensures Lucky(w, Sweep(CheckAll, w, ids, now, env, tout).0, ids, now, pick)
  {
    hide TableOk, PingsOk, FlowOk, Visit, TimerLeft, FlowMoves, Alive;
    var id := ids[0];
    var (w', t) := Visit(CheckAll, w, id, now, here, tout);
    VisitLeaves(w, id, now, here, tout);
    VisitKeeps(CheckAll, w, id, now, here, tout, None);
    VisitAgrees(w, id, now, here, env, tout);
    SweepAgrees(w', ids[1..], now, later, env, t);
    SweepKeeps(CheckAll, w', ids[1..], now, later, t, None);
    LuckyStep(w, w', Sweep(CheckAll, w', ids[1..], now, later, t).0, ids, now, pick);
  }

  /** Any luck for each flow comes about with some oracle. */
  lemma {:induction false} AnyLuck(w: World, ids: seq<nat>, now: int, tout: int, pick: nat -> Luck) returns (env: Env)
    requires WorldOk(w) && Quiet(w, None) && now > 0 && (forall id: nat :: At(pick(id), now))
    requires forall id :: id in ids ==> id in w.flows
    requires forall i, j :: 0 <= i < j < |ids| ==> ids[i] != ids[j]
    ensures Still(env, now)
    ensures Lucky(w, Sweep(CheckAll, w, ids, now, env, tout).0, ids, now, pick)
    decreases |ids|
  {
    hide TableOk, PingsOk, FlowOk, Visit, Lucky, FlowMoves;
    if ids == [] {
      env := t => Io(false, 0, now);
      assert Lucky(w, w, [], now, pick) by { NobodyUnlucky(w, now, pick); }
    } else {
      var luck := pick(ids[0]);
      var here := t => if t == w.tick then luck.first else luck.second;
      assert At(luck, now);
      var (w', t) := Visit(CheckAll, w, ids[0], now, here, tout);
      VisitKeeps(CheckAll, w, ids[0], now, here, tout, None);
      var later := AnyLuck(w', ids[1..], now, t, pick);
      env := n => if n < w'.tick then here(n) else later(n);
      GluedLuck(w, ids, now, tout, here, later, env, pick);
    }
  }

  lemma NobodyUnlucky(w: World, now: int, pick: nat -> Luck)
    ensures Lucky(w, w, [], now, pick)
  {
  }

  /** What a visit makes of its flow depends on that flow, the servers and the oracle position. */
  lemma VisitLocal(job: Job, w: World, w': World, id: nat, now: int, env: Env, tout: int, tout': int)
    requires Telling(job) && id in w.flows && id in w'.flows && w'.flows[id] == w.flows[id]
    requires w'.servers == w.servers && w'.tick == w.tick
    ensures var r, r' := Visit(job, w, id, now, env, tout).0, Visit(job, w', id, now, env, tout').0;
      id in r.flows && id in r'.flows && r'.flows[id] == r.flows[id]
  {
    hide Drain;
  }

  /** A pass makes of each flow what one visit, at some position of the oracle, makes of it. */
  lemma {:induction false} SweepVisits(job: Job, w: World, ids: seq<nat>, now: int, env: Env, tout: int,
                                       hot: Option<nat>, id: nat) returns (tick: nat)
    requires WorldOk(w) && Quiet(w, hot) && Broadcast(job) && ClockPositive(env) && id in ids
    requires forall j :: j in ids ==> j in w.flows
    requires forall i, j :: 0 <= i < j < |ids| ==> ids[i] != ids[j]
    ensures var r, v := Sweep(job, w, ids, now, env, tout).0, Visit(job, w.(tick := tick), id, now, env, 0).0;
      id in r.flows && id in v.flows && r.flows[id] == v.flows[id]
    decreases |ids|
  {
    hide TableOk, PingsOk, FlowOk, Visit, FlowMoves;
    var (w', t) := Visit(job, w, ids[0], now, env, tout);
    VisitKeeps(job, w, ids[0], now, env, tout, hot);
    if id == ids[0] {
      tick := w.tick;
      SweepKeeps(job, w', ids[1..], now, env, t, hot);
      VisitLocal(job, w, w.(tick := tick), id, now, env, tout, 0);
      assert id !in ids[1..];
    } else {
      assert id in ids[1..];
      tick := SweepVisits(job, w', ids[1..], now, env, t, hot, id);
      VisitLocal(job, w.(tick := tick), w'.(tick := tick), id, now, env, 0, 0);
    }
  }

  /** Every pass treats each flow according to some luck. */
  lemma SomeLuck(w: World, ids: seq<nat>, now: int, env: Env, tout: int, id: nat) returns (k: Luck)
    requires WorldOk(w) && Quiet(w, None) && Still(env, now)
    requires forall j :: j in ids ==> j in w.flows
    requires forall i, j :: 0 <= i < j < |ids| ==> ids[i] != ids[j]
    requires id in ids
    ensures var r := Sweep(CheckAll, w, ids, now, env, tout).0;
      id in r.flows && r.flows[id].timeout == TimerLeft(w.flows[id], Alive(w, w.flows[id]), k, now)
  {
    hide Sweep, Visit, TimerLeft;
    var tick := SweepVisits(CheckAll, w, ids, now, env, tout, None, id);
    VisitLeaves(w.(tick := tick), id, now, env, 0);
    k := Luck(env(tick), env(tick + 1));
  }
}
