/** The renewal schedule of section 11.2.1 of RFC 6887, as fhndl_send_renew sets it. */
module Renewal {
  import opened Base
  import opened FlowMachine
  import opened FlowRuns

  function Pow2(n: nat): (p: nat)
    ensures p >= 1
  {
    if n == 0 then 1 else 2 * Pow2(n - 1)
  }

  /** Whole seconds of granted lifetime left at `now`. */
  function SecondsLeft(f: Flow, now: int): int {
    f.recvEnd - now / SECOND
  }

  /** Sends succeed and the clock stands at `now`. */
  function Calm(now: int): Env {
    t => Io(true, 0, now)
  }

  /** A timed renewal whose request goes out at `now`. */
  function Renewed(f: Flow, now: int): Flow {
    Drain(f, TimedOut, Ctx(true, false), None, Calm(now), 0).flow
  }

  /** A renewal sets its timer half of the seconds left ahead, unless that is nothing. */
  lemma RenewalKeeps(f: Flow, now: int)
    requires f.state == WaitRenew && HalfLeft(f.recvEnd, now) != 0
    ensures Renewed(f, now) == f.(timeout := now + HalfLeft(f.recvEnd, now) * SECOND)
  {
    hide Drain, HalfLeft;
    RenewalRuns(f, Ctx(true, false), Calm(now), 0);
  }

  /** Then it falls back to a fresh request. */
  lemma RenewalFallsBack(f: Flow, now: int)
    requires f.state == WaitRenew && HalfLeft(f.recvEnd, now) == 0
    ensures Renewed(f, now).state == WaitResp
  {
    hide Drain, HalfLeft;
    RenewalRuns(f, Ctx(true, false), Calm(now), 0);
    FallBackRuns(OnSendRenew(f.(state := SendRenew), Ctx(true, false), Calm(now)(0)).0, Ctx(true, false), Calm(now), 1);
  }

  /**
   With two seconds or more left the renewal keeps the mapping and its next timer
   lies ahead but before expiry, after half of the seconds left.
   */
  lemma RenewalSchedule(f: Flow, now: int)
    requires f.state == WaitRenew && SecondsLeft(f, now) >= 2
    ensures Renewed(f, now) == f.(timeout := now + SecondsLeft(f, now) / 2 * SECOND)
    ensures now < Renewed(f, now).timeout < f.recvEnd * SECOND
  {
    hide Renewed;
    RenewalKeeps(f, now);
  }

  /** The renewal gives way to a fresh request exactly in the last second, never after expiry. */
  lemma FallsBackInLastSecond(f: Flow, now: int)
    requires f.state == WaitRenew
    ensures Renewed(f, now).state == WaitRenew <==> !(0 <= SecondsLeft(f, now) <= 1)
    ensures SecondsLeft(f, now) < 0 ==> Renewed(f, now).timeout < now
  {
    hide Renewed;
    if HalfLeft(f.recvEnd, now) == 0 {
      RenewalFallsBack(f, now);
    } else {
      RenewalKeeps(f, now);
    }
  }

  /** A success that grants lifetime 0 leaves no timer, so no renewal is ever timed. */
  lemma ZeroLifetimeDisarms(f: Flow, m: Msg, c: Ctx, env: Env, tick: nat)
    requires m.result == 0 && (f.state == WaitResp || f.state == WaitRenew)
    ensures var g := Drain(f, Res(0), c, Some(m), env, tick).flow;
      m.lifetime == 0 ==> g.timeout == 0 && g.state == WaitRenew
  {
  }

  /**
   The first timer after a success: half of the whole seconds left, so ahead and before expiry with
   two or more of them left; due at once in the last second, and in the past after expiry.
   */
  lemma FirstTimer(f: Flow, m: Msg, c: Ctx, env: Env, tick: nat)
    requires m.result == 0 && m.lifetime != 0 && (f.state == WaitResp || f.state == WaitRenew)
    ensures var g, now := Drain(f, Res(0), c, Some(m), env, tick).flow, env(tick).now;
      var left := SecondsLeft(g, now);
      g.state == WaitRenew && g.recvEnd == GrantEnd(m) && g.timeout == now + left / 2 * SECOND &&
      (left >= 2 <==> now < g.timeout) && (left >= 2 ==> g.timeout < g.recvEnd * SECOND) &&
      (0 <= left <= 1 <==> g.timeout == now) && (left < 0 <==> g.timeout < now)
  {
    hide SameIdentity;
    var g, now := OnSuccess(f.(state := WaitRenew), m, env(tick)), env(tick).now;
    assert Drain(f, Res(0), c, Some(m), env, tick).flow == g;
  }

  /** Handled in the second it was received, a success for L >= 2 seconds sets its first timer L/2 seconds ahead. */
  lemma FirstTimerInTime(f: Flow, m: Msg, c: Ctx, env: Env, tick: nat)
    requires m.result == 0 && m.lifetime >= 2 && (f.state == WaitResp || f.state == WaitRenew)
    requires env(tick).now / SECOND == m.receivedTime && m.receivedTime + m.lifetime <= 0x7fff_ffff_ffff_ffff
    ensures var g := Drain(f, Res(0), c, Some(m), env, tick).flow;
      g.recvEnd == m.receivedTime + m.lifetime && g.timeout == env(tick).now + m.lifetime / 2 * SECOND
  {
    hide Drain;
    FirstTimer(f, m, c, env, tick);
  }

  /** g is what a timeout at `now` makes of f, whatever its handlers meet. */
  ghost predicate TimesOutTo(f: Flow, g: Flow, now: int) {
    exists c: Ctx, env: Env, tick: nat ::
      !c.trigger && env(tick).now == now && g == Drain(f, TimedOut, c, None, env, tick).flow
  }

  /** A flow that keeps its claim through a timeout has sent its renewal. */
  lemma StillRenewing(f: Flow, g: Flow, now: int)
    requires f.state == WaitRenew && g.state == WaitRenew && TimesOutTo(f, g, now)
    ensures HalfLeft(f.recvEnd, now) != 0 && g == f.(timeout := now + HalfLeft(f.recvEnd, now) * SECOND)
  {
    hide Drain, HalfLeft;
    var c: Ctx, env: Env, tick: nat :| !c.trigger && env(tick).now == now && g == Drain(f, TimedOut, c, None, env, tick).flow;
    RenewalRuns(f, c, env, tick);
    FallBackRuns(OnSendRenew(f.(state := SendRenew), c, env(tick)).0, c, env, tick + 1);
  }

  /**
   fs[0] got its timer at ts[0]; then each renewal is run no earlier than the timer
   before it, not after expiry, and is answered by nothing but the next timer.
   */
  ghost predicate UnansweredRenewals(fs: seq<Flow>, ts: seq<int>) {
    && |fs| == |ts| >= 1
    && fs[0].timeout == ts[0] + HalfLeft(fs[0].recvEnd, ts[0]) * SECOND
    && (forall i :: 0 <= i < |fs| ==> fs[i].state == WaitRenew && ts[i] / SECOND <= fs[i].recvEnd)
    && (forall i :: 1 <= i < |fs| ==> TimesOutTo(fs[i - 1], fs[i], ts[i]) && ts[i] >= fs[i - 1].timeout)
  }

  /** n unanswered renewals need more than 2^n seconds of lifetime: their number is logarithmic. */
  lemma {:induction false} RenewalsAreLogarithmic(fs: seq<Flow>, ts: seq<int>)
    requires UnansweredRenewals(fs, ts) && |fs| >= 2
    ensures Pow2(|fs| - 1) < SecondsLeft(fs[0], ts[0])
    decreases |fs|
  {
    hide TimesOutTo, Drain;
    var d0, d1 := SecondsLeft(fs[0], ts[0]), SecondsLeft(fs[0], ts[1]);
    assert TimesOutTo(fs[1 - 1], fs[1], ts[1]);
    StillRenewing(fs[0], fs[1], ts[1]);
    assert ts[0] / SECOND <= fs[0].recvEnd && ts[1] / SECOND <= fs[1].recvEnd;
    HalvesAtLeast(fs[0].recvEnd, ts[0], ts[1]);
    assert d1 <= d0 - d0 / 2 && d1 >= 2;
    if |fs| > 2 {
      RenewalsAreLogarithmic(fs[1..], ts[1..]);
    }
  }

  /** Waiting for the timer set at t0 uses up at least half of the seconds then left. */
  lemma HalvesAtLeast(end: int, t0: int, t1: int)
    requires t1 >= t0 + HalfLeft(end, t0) * SECOND
    ensures end - t1 / SECOND <= (end - t0 / SECOND) - (end - t0 / SECOND) / 2
  {
    var k := HalfLeft(end, t0);
    assert (t0 + k * SECOND) / SECOND == t0 / SECOND + k;
  }
}
