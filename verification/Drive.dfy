/** hserver_iter and pcp_pulse: driving servers to rest, and what a pulse guarantees. */
module Drive {
  import opened Base
  import opened FlowMachine
  import opened FlowRuns
  import opened ServerMachine
  import opened ServerRuns

  /** The world between calls into the library. */
  ghost predicate AtRest(w: World) {
    WorldOk(w) && forall i :: 0 <= i < |w.servers| ==> Settled(w.servers[i])
  }

  /** The while(1) loop of hserver_iter: deliver timeouts until the deadline is unset or ahead. */
  ghost function Settle(w: World, s: nat, now: int, env: Env): (r: World)
    requires Driving(w, s, now) && Still(env, now) && w.servers[s].state != Uninit
    ensures |r.servers| == |w.servers|
    decreases Rank(w.servers[s], now, w.maxPing)
  {
    if Due(w.servers[s], now) then
      TimeoutKeeps(w, s, now, env);
      Settle(Run(w, s, Timeout, now, env), s, now, env)
    else w
  }

  /** How many timeouts the loop delivers. */
  ghost function SettleSteps(w: World, s: nat, now: int, env: Env): (n: nat)
    requires Driving(w, s, now) && Still(env, now) && w.servers[s].state != Uninit
    decreases Rank(w.servers[s], now, w.maxPing)
  {
    if Due(w.servers[s], now) then
      TimeoutKeeps(w, s, now, env);
      1 + SettleSteps(Run(w, s, Timeout, now, env), s, now, env)
    else 0
  }

  /** The loop ends within PCP_MAX_PING_COUNT + 3 steps. */
  lemma {:induction false} SettleIsBounded(w: World, s: nat, now: int, env: Env)
    requires Driving(w, s, now) && Still(env, now) && w.servers[s].state != Uninit
    ensures SettleSteps(w, s, now, env) <= Rank(w.servers[s], now, w.maxPing) <= w.maxPing + 3
    decreases Rank(w.servers[s], now, w.maxPing)
  {
    hide Run;
    if Due(w.servers[s], now) {
      TimeoutKeeps(w, s, now, env);
      SettleIsBounded(Run(w, s, Timeout, now, env), s, now, env);
    }
  }

  /**
   The loop leaves the server in a resting state, no deadline overdue, no restart pending,
   every other server untouched; only a restart trigger may have gained a mapping.
   */
  lemma {:induction false} SettleKeeps(w: World, s: nat, now: int, env: Env)
    requires Driving(w, s, now) && Still(env, now) && w.servers[s].state != Uninit
    ensures Evolves(w, Settle(w, s, now, env), s, w.servers[s].restart) && AtRest(Settle(w, s, now, env))
    ensures !Due(Settle(w, s, now, env).servers[s], now)
    ensures Settle(w, s, now, env).servers[s].state in {Allocated, Ping, WaitPingResp, WaitIo, NotWorking}
    decreases Rank(w.servers[s], now, w.maxPing)
  {
    hide Run, TableOk, PingsOk, FlowOk;
    if Due(w.servers[s], now) {
      TimeoutKeeps(w, s, now, env);
      var w1 := Run(w, s, Timeout, now, env);
      SettleKeeps(w1, s, now, env);
      EvolvesWeaker(w1, Settle(w1, s, now, env), s, None, w.servers[s].restart);
      EvolvesChain(w, w1, Settle(w1, s, now, env), s, w.servers[s].restart);
    } else {
      FlowsOnlyReflexive(w, w.servers[s].restart);
    }
  }

  // ------------------------------------------------------------- one drive

  /** hserver_iter: deliver an event that is not a timeout, then settle. */
  ghost function Iter(w: World, s: nat, ev: ServerEvent, now: int, env: Env): (r: World)
    requires AtRest(w) && s < |w.servers| && Still(env, now)
    requires ev != Terminate && (ev.IoEvent? ==> ev.msg.version <= MAX_VERSION)
    ensures |r.servers| == |w.servers|
  {
    if w.servers[s].state == Uninit then w
    else if ev == Timeout then Settle(w, s, now, env)
    else
      ResponseKeeps(w, s, ev.msg, now, env);
      Settle(Run(w, s, ev, now, env), s, now, env)
  }

  /** The flow that may gain a mapping by event ev. */
  ghost function HotFlow(w: World, s: nat, ev: ServerEvent): Option<nat>
    requires AtRest(w) && s < |w.servers|
  {
    if ev.IoEvent? then Target(w, s, ev.msg) else None
  }

  lemma IterKeeps(w: World, s: nat, ev: ServerEvent, now: int, env: Env)
    requires AtRest(w) && s < |w.servers| && Still(env, now)
    requires ev != Terminate && (ev.IoEvent? ==> ev.msg.version <= MAX_VERSION)
    ensures Evolves(w, Iter(w, s, ev, now, env), s, HotFlow(w, s, ev)) && AtRest(Iter(w, s, ev, now, env))
    ensures Iter(w, s, ev, now, env).servers[s].state in {Uninit, Allocated, Ping, WaitPingResp, WaitIo, NotWorking}
    ensures w.servers[s].state != Uninit ==> !Due(Iter(w, s, ev, now, env).servers[s], now)
    ensures w.servers[s].state == Uninit <==> Iter(w, s, ev, now, env).servers[s].state == Uninit
    ensures w.servers[s].state == Uninit ==> Iter(w, s, ev, now, env) == w
  {
    hide Run, TableOk, PingsOk, FlowOk, Target, Settle;
    if w.servers[s].state == Uninit {
      FlowsOnlyReflexive(w, HotFlow(w, s, ev));
    } else if ev == Timeout {
      SettleKeeps(w, s, now, env);
    } else {
      ResponseKeeps(w, s, ev.msg, now, env);
      var w1 := Run(w, s, ev, now, env);
      SettleKeeps(w1, s, now, env);
      EvolvesWeaker(w1, Settle(w1, s, now, env), s, w1.servers[s].restart, HotFlow(w, s, ev));
      EvolvesChain(w, w1, Settle(w1, s, now, env), s, HotFlow(w, s, ev));
    }
  }

  lemma EvolvesWeaker(w: World, w': World, s: nat, hot: Option<nat>, hot': Option<nat>)
    requires Evolves(w, w', s, hot) && hot in {None, hot'}
    ensures Evolves(w, w', s, hot')
  {
  }
}
