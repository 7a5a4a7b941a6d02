/** The calls of pcp_api as they update a context in place. */
module Api {
  import opened Base
  import opened FlowKey
  import opened FlowMachine
  import opened ServerMachine
  import opened ServerRuns
  import opened Drive
  import opened Engine
  import Client

  /** pcp_new_flow: one flow on every server that fits, chained in the order of the servers. */
  method NewFlow(c: Context, kd: Key, lifetime: U32, ext: Ext, now: int) returns (chain: seq<nat>)
    requires AtRest(c.Value())
    modifies c
    ensures c.Value() == Client.NewFlow(old(c.Value()), 0, kd, lifetime, ext, now)
    ensures c.nextId == old(c.nextId) + |chain| && forall i :: 0 <= i < |chain| ==> chain[i] == old(c.nextId) + i
    ensures forall id :: id in chain ==> id in c.flows && c.flows[id].server < |c.servers|
  {
    hide Settled, Client.Eligible, Bucket, TableOk, PingsOk, Client.NewFlowOn;
    chain := [];
    var s: nat := 0;
    ghost var goal := Client.NewFlow(c.Value(), 0, kd, lifetime, ext, now);
    while s < |c.servers|
      invariant s <= |c.servers| && AtRest(c.Value())
      invariant Client.NewFlow(c.Value(), s, kd, lifetime, ext, now) == goal
      invariant c.nextId == old(c.nextId) + |chain| && forall i :: 0 <= i < |chain| ==> chain[i] == old(c.nextId) + i
      invariant forall id :: id in chain ==> id in c.flows && c.flows[id].server < |c.servers|
    {
      Client.NewFlowOnKeeps(c.Value(), s, kd, lifetime, ext, now);
      UnfitSkipped(c.Value(), s, kd, lifetime, ext, now);
      if Client.Eligible(kd, c.servers[s]) {
        chain := chain + [c.nextId];
        InitFlow(c, s, kd, lifetime, ext, now);
      }
      s := s + 1;
    }
  }

  lemma UnfitSkipped(w: World, s: nat, kd: Key, lifetime: U32, ext: Ext, now: int)
    requires TableOk(w) && s < |w.servers|
    ensures !Client.Eligible(kd, w.servers[s]) ==> Client.NewFlowOn(w, s, kd, lifetime, ext, now) == w
  {
  }

  /** chain_and_assign_src_ip and init_flow on one eligible server. */
  method InitFlow(c: Context, s: nat, kd: Key, lifetime: U32, ext: Ext, now: int)
    requires TableOk(c.Value()) && s < |c.servers| && Client.Eligible(kd, c.servers[s])
    modifies c
    ensures c.Value() == Client.NewFlowOn(old(c.Value()), s, kd, lifetime, ext, now)
    ensures c.nextId == old(c.nextId) + 1 && |c.servers| == old(|c.servers|)
    ensures c.flows.Keys == old(c.flows.Keys) + {old(c.nextId)} && c.flows[old(c.nextId)].server == s
    ensures forall id :: id in old(c.flows) && id != old(c.nextId) ==> c.flows[id] == old(c.flows)[id]
  {
    hide TableOk, Bucket;
    var f := Client.FlowOn(c.Value(), s, kd, lifetime, ext, now);
    var i := InsertAt(c.Value(), f.bucket, 0);
    c.flows, c.order, c.nextId := c.flows[f.id := f], c.order[..i] + [f.id] + c.order[i..], c.nextId + 1;
    c.servers := c.servers[s := c.servers[s].(nextTimeout := now)];
  }

  /** pcp_flow_updated after a change of lifetime. */
  method SetLifetime(c: Context, id: nat, lifetime: U32, now: int)
    requires id in c.flows && c.flows[id].server < |c.servers|
    modifies c
    ensures c.Value() == Client.Updated(old(c.Value()), id, lifetime, now)
  {
    var f := c.flows[id];
    if c.servers[f.server].state != Uninit {
      c.servers := c.servers[f.server := c.servers[f.server].(nextTimeout := now)];
    }
    f := f.(lifetime := lifetime, timeout := now);
    if f.state != WaitServerInit && f.state != Idle && f.state != Failed {
      f := f.(state := Send);
    }
    c.flows := c.flows[id := f];
  }

  /** pcp_close_flow_intern; its second test of the state repeats what the first one did. */
  method CloseFlow(c: Context, id: nat, now: int)
    requires id in c.flows && c.flows[id].server < |c.servers|
    modifies c
    ensures c.Value() == Client.Closed(old(c.Value()), id, now)
  {
    if Parked(c.flows[id].state) {
      c.flows := c.flows[id := c.flows[id].(state := Failed)];
    } else {
      SetLifetime(c, id, 0, now);
    }
    if !Parked(c.flows[id].state) {
      SetLifetime(c, id, 0, now);
    } else {
      c.flows := c.flows[id := c.flows[id].(state := Failed)];
    }
  }

  /** The search of pcp_db_rem_flow for the flow to unlink. */
  method PositionOf(order: seq<nat>, id: nat) returns (i: nat)
    requires id in order
    ensures i == Client.IndexIn(order, id)
  {
    i := 0;
    while order[i] != id
      invariant i < |order| && id in order[i..]
      invariant Client.IndexIn(order, id) == i + Client.IndexIn(order[i..], id)
      decreases |order| - i
    {
      assert order[i..][0] == order[i] && order[i..][1..] == order[i + 1..];
      i := i + 1;
    }
    assert order[i..][0] == id;
  }

  /** pcp_delete_flow_intern. */
  method DeleteFlow(c: Context, id: nat)
    requires id in c.flows && id in c.order && c.flows[id].server < |c.servers|
    modifies c
    ensures c.Value() == Client.Deleted(old(c.Value()), id)
  {
    var s := c.flows[id].server;
    if c.servers[s].state != Uninit && c.servers[s].ping == Some(id) {
      c.servers := c.servers[s := c.servers[s].(ping := None)];
    }
    var i := PositionOf(c.order, id);
    c.flows, c.order := c.flows - {id}, c.order[..i] + c.order[i + 1..];
  }

  // ------------------------------------------------------- flow results

  datatype FlowResult = Processing | Succeeded | PartialResult | ShortLifetimeError | FailedResult

  predicate Exits(st: FlowState) {
    st == WaitRenew || st == Failed || st == WaitShortLife
  }

  function CountExits(states: seq<FlowState>): nat {
    if states == [] then 0
    else CountExits(states[..|states| - 1]) + if Exits(states[|states| - 1]) then 1 else 0
  }

  /** pcp_eval_flow_state over the states of a chain of flows. */
  method EvalFlowState(states: seq<FlowState>) returns (n: nat, r: FlowResult)
    ensures n == CountExits(states)
    ensures r == Succeeded <==> WaitRenew in states && forall st :: st in states ==> Exits(st)
    ensures r == PartialResult <==> WaitRenew in states && exists st :: st in states && !Exits(st)
    ensures r == Processing <==> WaitRenew !in states && exists st :: st in states && !Exits(st)
    ensures r == FailedResult <==> WaitRenew !in states && Failed in states && forall st :: st in states ==> Exits(st)
    ensures r == ShortLifetimeError <==> forall st :: st in states ==> st == WaitShortLife
  {
    var success, failed, pending := false, false, false;
    n := 0;
    for i := 0 to |states|
      invariant n == CountExits(states[..i])
      invariant success <==> WaitRenew in states[..i]
      invariant failed <==> Failed in states[..i]
      invariant pending <==> exists st :: st in states[..i] && !Exits(st)
    {
      assert states[..i + 1] == states[..i] + [states[i]];
      match states[i] {
        case WaitRenew => success, n := true, n + 1;
        case Failed => failed, n := true, n + 1;
        case WaitShortLife => n := n + 1;
        case _ => pending := true;
      }
    }
    assert states[..|states|] == states;
    if pending {
      r := if success then PartialResult else Processing;
    } else if success {
      r := Succeeded;
    } else {
      r := if failed then FailedResult else ShortLifetimeError;
    }
  }

  /** The count is 0 exactly when no flow has come to an exit state, and full exactly when all have. */
  lemma {:induction false} CountExitsBounds(states: seq<FlowState>)
    ensures CountExits(states) <= |states|
    ensures CountExits(states) == |states| <==> forall i :: 0 <= i < |states| ==> Exits(states[i])
    ensures CountExits(states) == 0 <==> forall i :: 0 <= i < |states| ==> !Exits(states[i])
  {
    hide Exits;
    if states != [] {
      var front := states[..|states| - 1];
      CountExitsBounds(front);
      assert forall i :: 0 <= i < |front| ==> front[i] == states[i];
    }
  }
}
