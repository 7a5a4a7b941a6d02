/** pcp_flow_send_msg: handing a built message to the socket, piece by piece. */
module Sending {
  import opened Base
  import opened FlowMachine
  import opened FlowRuns
  import opened Wire

  /** Whether `left` bytes go out, when call k of sendto takes calls(k) of what it is offered. */
  predicate GoesOut(left: nat, calls: nat -> int, k: nat)
    decreases left
  {
    left == 0 || (calls(k) > 0 && GoesOut(left - Min(calls(k), left), calls, k + 1))
  }

  /** The send loop: out are the bytes taken, n the number of calls. */
  method SendMessage(msg: seq<Byte>, calls: nat -> int) returns (ok: bool, out: seq<Byte>, n: nat)
    ensures ok <==> GoesOut(|msg|, calls, 0)
    ensures ok <==> out == msg
    ensures out <= msg && (n == 0 <==> msg == [])
    ensures forall k: nat :: k + 1 < n || (ok && k < n) ==> calls(k) > 0
    ensures !ok ==> n > 0 && calls(n - 1) <= 0
  {
    var left := |msg|;
    ok, out, n := true, [], 0;
    while left != 0
      invariant 0 <= left <= |msg| && out == msg[..|msg| - left] && ok
      invariant GoesOut(|msg|, calls, 0) <==> GoesOut(left, calls, n)
      invariant forall k: nat :: k < n ==> calls(k) > 0
      invariant n == 0 <==> left == |msg|
      decreases left
    {
      var off := |msg| - left;
      var ret := Min(calls(n), left);
      n := n + 1;
      if ret <= 0 {
        return false, out, n;
      }
      assert msg[..off + ret] == msg[..off] + msg[off..off + ret];
      out := out + msg[off..off + ret];
      left := left - ret;
    }
  }

  /**
   A request that NAT-PMP cannot express counts as sent without a single call of sendto, and its
   flow goes on to wait for an answer to nothing.
   */
  lemma NothingIsAwaited(r: Request, calls: nat -> int, f: Flow, env: Env, tick: nat, now: int)
    requires Inexpressible(r.kd) && f.state != WaitResp && Frozen(env, now)
    requires Build(0, r).Some? ==> env(tick).ok == GoesOut(|Build(0, r).value|, calls, 0)
    ensures Build(0, r) == Some([]) && GoesOut(0, calls, 0)
    ensures Drain(f, SendNow, Ctx(true, false), None, env, tick).flow ==
            f.(state := WaitResp, rt := IRT, timeout := now + IRT * 1000)
  {
    hide SameIdentity;
    BuildOutcome(0, r);
    var (g, ev) := RunHandler(HSend, f.(state := Send), Ctx(true, false), None, env(tick));
    SendTail(g, ev, Ctx(true, false), env, tick + 1, now);
  }
}
