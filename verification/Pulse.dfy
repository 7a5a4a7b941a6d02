/** pcp_pulse: hand a response to its server, then drive every server and report the nearest deadline. */
module Pulse {
  import opened Base
  import opened FlowMachine
  import opened FlowRuns
  import opened ServerMachine
  import opened ServerRuns
  import opened Drive

  /** The clock and the oracle during one hserver_iter call. */
  datatype Tempo = Tempo(env: Env, now: int)

  ghost predicate Steady(d: nat -> Tempo) {
    forall k: nat :: Still(d(k).env, d(k).now)
  }

  /** A response and the server it came from. */
  datatype Addressed = Addressed(s: nat, m: Msg)

  ghost predicate Deliverable(w: World, a: Addressed) {
    a.s < |w.servers| && a.m.version <= MAX_VERSION
  }

  /** How hserver_iter folds one server deadline into the caller's timeout; 0 means none. */
  function FoldDeadline(srv: Server, now: int, tout: int): int {
    if srv.state == Uninit || srv.nextTimeout == 0 then tout
    else
      var left := srv.nextTimeout - now;
      if tout == 0 || left < tout then left else tout
  }

  /** The pass of pcp_pulse over the servers from index k on. */
  ghost function DriveFrom(w: World, k: nat, d: nat -> Tempo, tout: int): (r: (World, int))
    requires AtRest(w) && Steady(d) && k <= |w.servers|
    ensures |r.0.servers| == |w.servers|
    decreases |w.servers| - k
  {
    if k == |w.servers| then (w, tout)
    else
      IterKeeps(w, k, Timeout, d(k).now, d(k).env);
      var w' := Iter(w, k, Timeout, d(k).now, d(k).env);
      DriveFrom(w', k + 1, d, FoldDeadline(w'.servers[k], d(k).now, tout))
  }

  /** The world after a received response, if any, was handed to its server. */
  ghost function Received(w: World, a: Option<Addressed>, t: Tempo): (r: World)
    requires AtRest(w) && Still(t.env, t.now) && (a.Some? ==> Deliverable(w, a.value))
    ensures |r.servers| == |w.servers|
  {
    if a.None? then w else Iter(w, a.value.s, IoEvent(a.value.m), t.now, t.env)
  }

  lemma ReceivedAtRest(w: World, a: Option<Addressed>, t: Tempo)
    requires AtRest(w) && Still(t.env, t.now) && (a.Some? ==> Deliverable(w, a.value))
    ensures AtRest(Received(w, a, t))
  {
    hide Iter, TableOk, PingsOk;
    if a.Some? {
      IterKeeps(w, a.value.s, IoEvent(a.value.m), t.now, t.env);
    }
  }

  ghost function PulseRun(w: World, a: Option<Addressed>, t: Tempo, d: nat -> Tempo, tout: int): (r: (World, int))
    requires AtRest(w) && Still(t.env, t.now) && Steady(d) && (a.Some? ==> Deliverable(w, a.value))
  {
    ReceivedAtRest(w, a, t);
    DriveFrom(Received(w, a, t), 0, d, tout)
  }

  // -------------------------------------------------------- invariants

  /** Servers keep their identity; an unused slot stays as it is. */
  predicate ServerMoves(a: Server, b: Server) {
    SameServer(a, b) && (a.state == Uninit <==> b.state == Uninit) && (a.state == Uninit ==> a == b)
  }

  /** Flows survive, keep their identity, and only the answered flow may gain a mapping. */
  ghost predicate FlowsEvolve(w: World, w': World, hot: Option<nat>) {
    && |w'.servers| == |w.servers| && w'.maxPing == w.maxPing && w'.nextId >= w.nextId
    && (forall i :: 0 <= i < |w.servers| ==> ServerMoves(w.servers[i], w'.servers[i]))
    && (forall id :: id in w.flows ==> id in w'.flows && FlowMoves(w.flows[id], w'.flows[id], hot))
  }

  lemma FlowsEvolveChain(w: World, w1: World, w2: World, hot: Option<nat>)
    requires FlowsEvolve(w, w1, hot) && FlowsEvolve(w1, w2, hot)
    ensures FlowsEvolve(w, w2, hot)
  {
  }

  lemma FlowsEvolveWeaker(w: World, w1: World, hot: Option<nat>)
    requires FlowsEvolve(w, w1, None)
    ensures FlowsEvolve(w, w1, hot)
  {
  }

  /** Driving from server k on leaves the world at rest and the servers before k untouched. */
  lemma {:induction false} DriveFromKeeps(w: World, k: nat, d: nat -> Tempo, tout: int)
    requires AtRest(w) && Steady(d) && k <= |w.servers|
    ensures var r := DriveFrom(w, k, d, tout).0;
      AtRest(r) && FlowsEvolve(w, r, None) && (forall i :: 0 <= i < k ==> r.servers[i] == w.servers[i])
    decreases |w.servers| - k
  {
    hide Iter, TableOk, PingsOk, FlowOk, KeepsGrant;
    if k == |w.servers| {
      FlowsOnlyReflexive(w, None);
    } else {
      IterKeeps(w, k, Timeout, d(k).now, d(k).env);
      var w' := Iter(w, k, Timeout, d(k).now, d(k).env);
      DriveFromKeeps(w', k + 1, d, FoldDeadline(w'.servers[k], d(k).now, tout));
      FlowsEvolveChain(w, w', DriveFrom(w, k, d, tout).0, None);
    }
  }

  /** The flow a received response is meant for. */
  ghost function Answered(w: World, a: Option<Addressed>): Option<nat>
    requires AtRest(w) && (a.Some? ==> Deliverable(w, a.value))
  {
    if a.None? then None else Target(w, a.value.s, a.value.m)
  }

  /** Every pulse keeps the world at rest; only the answered flow may gain a mapping. */
  lemma PulseKeeps(w: World, a: Option<Addressed>, t: Tempo, d: nat -> Tempo, tout: int)
    requires AtRest(w) && Still(t.env, t.now) && Steady(d) && (a.Some? ==> Deliverable(w, a.value))
    ensures AtRest(PulseRun(w, a, t, d, tout).0)
    ensures FlowsEvolve(w, PulseRun(w, a, t, d, tout).0, Answered(w, a))
  {
    hide Iter, TableOk, PingsOk, FlowOk, DriveFrom, Target, KeepsGrant;
    var w1 := Received(w, a, t);
    ReceivedAtRest(w, a, t);
    DriveFromKeeps(w1, 0, d, tout);
    FlowsEvolveWeaker(w1, PulseRun(w, a, t, d, tout).0, Answered(w, a));
    if a.Some? {
      IterKeeps(w, a.value.s, IoEvent(a.value.m), t.now, t.env);
      FlowsEvolveChain(w, w1, PulseRun(w, a, t, d, tout).0, Answered(w, a));
    }
  }

  // ---------------------------------------------------------- deadline

  /** Server i still has a deadline, `left` microseconds after it was driven. */
  ghost predicate HasDeadline(w: World, d: nat -> Tempo, i: nat, left: int) {
    i < |w.servers| && w.servers[i].state != Uninit && w.servers[i].nextTimeout != 0 &&
    left == w.servers[i].nextTimeout - d(i).now
  }

  /** t is the least of the caller's non-zero value and the deadlines of the servers in lo..hi; 0 if there is none. */
  ghost predicate IsNearest(w: World, d: nat -> Tempo, lo: nat, hi: nat, tout: int, t: int) {
    && (tout != 0 ==> 0 < t <= tout)
    && (forall i: nat, left :: lo <= i < hi && HasDeadline(w, d, i, left) ==> 0 < t <= left)
    && (t == 0 || t == tout || exists i: nat :: lo <= i < hi && HasDeadline(w, d, i, t))
  }

  /** The timeout a pulse reports is exactly the nearest deadline. */
  lemma {:induction false} DriveFromDeadline(w: World, k: nat, d: nat -> Tempo, tout: int)
    requires AtRest(w) && Steady(d) && k <= |w.servers| && tout >= 0
    ensures var (r, t) := DriveFrom(w, k, d, tout); t >= 0 && IsNearest(r, d, k, |r.servers|, tout, t)
    decreases |w.servers| - k
  {
    hide Iter, TableOk, PingsOk, FlowOk, WorldOk;
    if k < |w.servers| {
      IterKeeps(w, k, Timeout, d(k).now, d(k).env);
      var w' := Iter(w, k, Timeout, d(k).now, d(k).env);
      var tout' := FoldDeadline(w'.servers[k], d(k).now, tout);
      assert w'.servers[k].state != Uninit ==> !Due(w'.servers[k], d(k).now);
      DriveFromDeadline(w', k + 1, d, tout');
      DriveFromKeeps(w', k + 1, d, tout');
      var (r, t) := DriveFrom(w, k, d, tout);
      assert r.servers[k] == w'.servers[k];
      NearestStep(r, d, k, tout, tout', t);
    }
  }

  /** Adding server k in front. */
  lemma NearestStep(r: World, d: nat -> Tempo, k: nat, tout: int, tout': int, t: int)
    requires k < |r.servers| && tout >= 0 && t >= 0
    requires tout' == FoldDeadline(r.servers[k], d(k).now, tout)
    requires r.servers[k].state != Uninit ==> !Due(r.servers[k], d(k).now)
    requires IsNearest(r, d, k + 1, |r.servers|, tout', t)
    ensures IsNearest(r, d, k, |r.servers|, tout, t)
  {
    var left := r.servers[k].nextTimeout - d(k).now;
    if r.servers[k].state != Uninit && r.servers[k].nextTimeout != 0 {
      assert HasDeadline(r, d, k, left) && left > 0;
    }
    forall i: nat, l | k <= i < |r.servers| && HasDeadline(r, d, i, l)
      ensures 0 < t <= l
    {
    }
    if t != 0 && t != tout && t == tout' {
      assert HasDeadline(r, d, k, t);
    }
  }
}
