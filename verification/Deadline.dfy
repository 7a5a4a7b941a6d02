/** The deadline a timer pass leaves behind, and the flow timers it misses. */
module Deadline {
  import opened Base
  import opened FlowMachine
  import opened FlowRuns
  import opened ServerMachine
  import opened ServerRuns
  import opened TimerPass

  /** FoldTimer along a list of timers. */
  function FoldAll(ts: seq<int>, now: int, tout: int): (t: int)
    ensures tout >= 0 ==> t >= 0
  {
    if ts == [] then tout else FoldAll(ts[1..], now, FoldTimer(ts[0], now, tout))
  }

  /** Timer i is matched by one that is no later and has no overdue timer after it. */
  ghost predicate Matched(ts: seq<int>, now: int, i: nat)
    requires i < |ts|
  {
    exists j :: 0 <= j < |ts| && Armed(ts[j], now) && ts[j] <= ts[i] && ClearAfter(ts, now, j)
  }

  ghost predicate ClearAfter(ts: seq<int>, now: int, j: int) {
    forall k :: 0 <= k < |ts| && k > j ==> !Overdue(ts[k], now)
  }

  /** t is the least of tout, unless 0 or followed by an overdue timer, and of the armed timers that no overdue one follows. */
  ghost predicate IsFold(ts: seq<int>, now: int, tout: int, t: int) {
    && (tout != 0 && ClearAfter(ts, now, -1) ==> 0 < t <= tout)
    && (forall j :: 0 <= j < |ts| && Armed(ts[j], now) && ClearAfter(ts, now, j) ==> 0 < t <= ts[j] - now)
    && (t == 0 || (t == tout && ClearAfter(ts, now, -1)) ||
        exists j :: 0 <= j < |ts| && ClearAfter(ts, now, j) && Armed(ts[j], now) && t == ts[j] - now)
  }

  lemma ClearShift(ts: seq<int>, now: int, j: int)
    requires ts != [] && j >= 0
    ensures ClearAfter(ts, now, j) <==> ClearAfter(ts[1..], now, j - 1)
  {
    if ClearAfter(ts[1..], now, j - 1) {
      forall k | 0 <= k < |ts| && k > j
        ensures !Overdue(ts[k], now)
      {
        assert ts[k] == ts[1..][k - 1];
      }
    }
  }

  /** What the fold computes: an overdue timer forgets everything before it. */
  lemma {:induction false} FoldIsExact(ts: seq<int>, now: int, tout: int)
    requires tout >= 0 && now > 0
    ensures IsFold(ts, now, tout, FoldAll(ts, now, tout))
  {
    if ts != [] {
      var tout' := FoldTimer(ts[0], now, tout);
      var t := FoldAll(ts, now, tout);
      FoldIsExact(ts[1..], now, tout');
      ClearShift(ts, now, 0);
      assert ClearAfter(ts, now, -1) <==> ClearAfter(ts, now, 0) && !Overdue(ts[0], now);
      forall j | 0 <= j < |ts| && Armed(ts[j], now) && ClearAfter(ts, now, j)
        ensures 0 < t <= ts[j] - now
      {
        ClearShift(ts, now, j);
        assert j > 0 ==> ts[j] == ts[1..][j - 1];
      }
      if t != 0 && !(t == tout' && ClearAfter(ts[1..], now, -1)) {
        var j :| 0 <= j < |ts| - 1 && ClearAfter(ts[1..], now, j) && Armed(ts[1..][j], now) && t == ts[1..][j] - now;
        ClearShift(ts, now, j + 1);
        assert ts[j + 1] == ts[1..][j];
      }
    }
  }

  // ----------------------------------------------------- the timer pass

  function TimersOf(flows: map<nat, Flow>, ids: seq<nat>): (ts: seq<int>)
    requires forall id :: id in ids ==> id in flows
    ensures |ts| == |ids|
  {
    seq(|ids|, k requires 0 <= k < |ids| => flows[ids[k]].timeout)
  }

  /** A timer pass folds the timers its flows are left with. */
  lemma {:induction false} SweepFolds(w: World, ids: seq<nat>, now: int, env: Env, tout: int)
    requires WorldOk(w) && Quiet(w, None) && Still(env, now)
    requires forall id :: id in ids ==> id in w.flows
    requires forall i, j :: 0 <= i < j < |ids| ==> ids[i] != ids[j]
    ensures var (r, t) := Sweep(CheckAll, w, ids, now, env, tout);
      r.flows.Keys == w.flows.Keys && t == FoldAll(TimersOf(r.flows, ids), now, tout)
    decreases |ids|
  {
    hide TableOk, PingsOk, FlowOk, HandleFlow, FlowMoves;
    SweepKeeps(CheckAll, w, ids, now, env, tout, None);
    if ids != [] {
      var (w', t) := Visit(CheckAll, w, ids[0], now, env, tout);
      VisitKeeps(CheckAll, w, ids[0], now, env, tout, None);
      SweepKeeps(CheckAll, w', ids[1..], now, env, t, None);
      SweepFolds(w', ids[1..], now, env, t);
      var r := Sweep(CheckAll, w, ids, now, env, tout).0;
      assert ids[0] !in ids[1..];
      assert TimersOf(r.flows, ids)[1..] == TimersOf(r.flows, ids[1..]);
    }
  }

  /**
   After handle_wait_io_timeout the server's deadline is a flow's timer, or unset, and no later
   than every armed timer exactly when each is matched by one that no overdue timer follows.
   */
  lemma DeadlineFolds(w: World, s: nat, now: int, env: Env)
    requires Driving(w, s, now) && Still(env, now) && w.servers[s].restart.None?
    ensures var r := OnTimers(w, s, now, env); var d := r.servers[s].nextTimeout;
      r.flows.Keys == w.flows.Keys &&
      (var ts := TimersOf(r.flows, w.order);
       (d == 0 || exists j :: 0 <= j < |ts| && Armed(ts[j], now) && ts[j] == d) &&
       ((forall i :: 0 <= i < |ts| && Armed(ts[i], now) ==> d != 0 && d <= ts[i]) <==>
        (forall i :: 0 <= i < |ts| && Armed(ts[i], now) ==> Matched(ts, now, i))))
  {
    hide PingsOk, FlowOk, Sweep, FoldAll, TimersOf;
    SweepFolds(w, w.order, now, env, 0);
    var (r, t) := Sweep(CheckAll, w, w.order, now, env, 0);
    FoldIsExact(TimersOf(r.flows, w.order), now, 0);
  }

  // ------------------------------------------------ told before the pass

  ghost predicate MayArmAt(w: World, now: int, i: nat, t: int)
    requires TableOk(w) && i < |w.order|
  {
    var f := w.flows[w.order[i]]; MayArm(f, Alive(w, f), now, t)
  }

  ghost predicate MayStayAt(w: World, now: int, k: nat)
    requires TableOk(w) && k < |w.order|
  {
    var f := w.flows[w.order[k]]; MayStay(f, Alive(w, f), now)
  }

  /** The timers of the table before the pass. */
  ghost function Before(w: World): (ts: seq<int>)
    requires TableOk(w)
    ensures |ts| == |w.order|
  {
    TimersOf(w.flows, w.order)
  }

  /** Behind position k some timer is already armed, and no later than t. */
  ghost predicate BackedUp(ts: seq<int>, now: int, k: nat, t: int) {
    exists j :: k < j < |ts| && Armed(ts[j], now) && ts[j] <= t
  }

  /** Wherever a timer may end up ahead of one that may stay overdue, a timer already armed behind both backs it up. */
  ghost predicate Sound(w: World, now: int)
    requires TableOk(w)
  {
    forall i: nat, k: nat, t | i < k < |w.order| && MayArmAt(w, now, i, t) && MayStayAt(w, now, k) ::
      BackedUp(Before(w), now, k, t)
  }

  /** The server's deadline after the pass is set and no later than any timer still ahead. */
  ghost predicate Covered(w: World, s: nat, now: int, env: Env)
    requires Driving(w, s, now)
  {
    var r := OnTimers(w, s, now, env); var d := r.servers[s].nextTimeout;
    forall id :: id in r.flows && Armed(r.flows[id].timeout, now) ==> d != 0 && d <= r.flows[id].timeout
  }

  /** The timers that a pass over the whole table leaves, in table order. */
  ghost function After(w: World, now: int, env: Env): (ts: seq<int>)
    requires TableOk(w) && WorldOk(w) && Quiet(w, None) && Still(env, now)
    ensures |ts| == |w.order|
  {
    SweepKeeps(CheckAll, w, w.order, now, env, 0, None);
    TimersOf(Sweep(CheckAll, w, w.order, now, env, 0).0.flows, w.order)
  }

  /** What the pass may do at position p bounds what it does. */
  lemma PassBounds(w: World, now: int, env: Env, p: nat)
    requires WorldOk(w) && Quiet(w, None) && Still(env, now) && p < |w.order|
    ensures Armed(After(w, now, env)[p], now) ==> MayArmAt(w, now, p, After(w, now, env)[p])
    ensures Overdue(After(w, now, env)[p], now) ==> MayStayAt(w, now, p)
    ensures Armed(Before(w)[p], now) ==> After(w, now, env)[p] == Before(w)[p]
  {
    NoTwice(w);
    hide Precedes, Sweep, TimeoutLeaves, MayArm, MayStay;
    var id := w.order[p];
    var f := w.flows[id];
    var k := SomeLuck(w, w.order, now, env, 0, id);
    StaysOverdue(f, Alive(w, f), k, now);
    if Armed(After(w, now, env)[p], now) {
      LeftMayArm(f, Alive(w, f), k, now);
    }
  }

  lemma LastOverdue(ts: seq<int>, now: int, i: nat) returns (k: nat)
    requires i < |ts| && !ClearAfter(ts, now, i)
    ensures i < k < |ts| && Overdue(ts[k], now) && ClearAfter(ts, now, k)
    decreases |ts| - i
  {
    k :| 0 <= k < |ts| && k > i && Overdue(ts[k], now);
    if !ClearAfter(ts, now, k) {
      k := LastOverdue(ts, now, k);
    }
  }

  lemma SoundMatches(w: World, now: int, env: Env, i: nat)
    requires WorldOk(w) && Quiet(w, None) && Still(env, now) && Sound(w, now)
    requires i < |w.order| && Armed(After(w, now, env)[i], now)
    ensures Matched(After(w, now, env), now, i)
  {
    hide After, Before, MayArmAt, MayStayAt, TableOk, PingsOk, FlowOk;
    var ts := After(w, now, env);
    if !ClearAfter(ts, now, i) {
      var k := LastOverdue(ts, now, i);
      PassBounds(w, now, env, i);
      PassBounds(w, now, env, k);
      assert BackedUp(Before(w), now, k, ts[i]);
      var j :| k < j < |w.order| && Armed(Before(w)[j], now) && Before(w)[j] <= ts[i];
      PassBounds(w, now, env, j);
    }
  }

  /** Covering told by position. */
  lemma CoveredByPosition(w: World, r: World, d: int, now: int)
    requires TableOk(w) && r.flows.Keys == w.flows.Keys
    ensures (forall id :: id in r.flows && Armed(r.flows[id].timeout, now) ==> d != 0 && d <= r.flows[id].timeout) <==>
            (var ts := TimersOf(r.flows, w.order);
             forall i :: 0 <= i < |ts| && Armed(ts[i], now) ==> d != 0 && d <= ts[i])
  {
    hide Precedes;
    var ts := TimersOf(r.flows, w.order);
    assert forall i :: 0 <= i < |ts| ==> w.order[i] in r.flows && r.flows[w.order[i]].timeout == ts[i];
    if forall i :: 0 <= i < |ts| && Armed(ts[i], now) ==> d != 0 && d <= ts[i] {
      forall id | id in r.flows && Armed(r.flows[id].timeout, now)
        ensures d != 0 && d <= r.flows[id].timeout
      {
        var i :| 0 <= i < |w.order| && w.order[i] == id;
      }
    }
  }

  /** Covering told by matching. */
  lemma CoveredIsMatched(w: World, s: nat, now: int, env: Env)
    requires Driving(w, s, now) && Still(env, now) && w.servers[s].restart.None?
    ensures Quiet(w, None)
    ensures Covered(w, s, now, env) <==>
            forall i: nat :: i < |w.order| && Armed(After(w, now, env)[i], now) ==> Matched(After(w, now, env), now, i)
  {
    hide Precedes, PingsOk, FlowOk, Sweep, Matched, TimersOf;
    DeadlineFolds(w, s, now, env);
    var r := OnTimers(w, s, now, env);
    CoveredByPosition(w, r, r.servers[s].nextTimeout, now);
    assert After(w, now, env) == TimersOf(r.flows, w.order);
  }

  lemma SoundCovers(w: World, s: nat, now: int, env: Env)
    requires Driving(w, s, now) && Still(env, now) && w.servers[s].restart.None? && Sound(w, now)
    ensures Covered(w, s, now, env)
  {
    CoveredIsMatched(w, s, now, env);
    hide Covered, Matched, After, Sound;
    forall i: nat | i < |w.order| && Armed(After(w, now, env)[i], now)
      ensures Matched(After(w, now, env), now, i)
    {
      SoundMatches(w, now, env, i);
    }
  }

  lemma AfterIs(w: World, now: int, env: Env, pick: nat -> Luck, p: nat)
    requires WorldOk(w) && Quiet(w, None) && Still(env, now) && p < |w.order|
    requires Lucky(w, Sweep(CheckAll, w, w.order, now, env, 0).0, w.order, now, pick)
    ensures var f := w.flows[w.order[p]];
      After(w, now, env)[p] == TimerLeft(f, Alive(w, f), pick(w.order[p]), now) && f.timeout == Before(w)[p]
  {
    hide Precedes, Sweep, TimerLeft, PingsOk, FlowOk;
    assert w.order[p] in w.order;
  }

  /** Without luck a timer is ahead only if it was. */
  lemma NoLuck(f: Flow, alive: bool, now: int, bad: Io)
    requires !bad.ok && Armed(TimerLeft(f, alive, Luck(bad, bad), now), now) && now > 0
    ensures TimerLeft(f, alive, Luck(bad, bad), now) == f.timeout
  {
  }

  /** An oracle that arms position i with t, leaves k overdue, and fails every other send. */
  lemma Misfortune(w: World, now: int, i: nat, k: nat, t: int) returns (env: Env)
    requires WorldOk(w) && Quiet(w, None) && now > 0
    requires i < k < |w.order| && MayArmAt(w, now, i, t) && MayStayAt(w, now, k)
    ensures Still(env, now) && After(w, now, env)[i] == t && Overdue(After(w, now, env)[k], now)
    ensures forall p :: 0 <= p < |w.order| && p != i && Armed(After(w, now, env)[p], now) ==>
      After(w, now, env)[p] == Before(w)[p]
  {
    NoTwice(w);
    hide Precedes, Sweep, MayArm, MayStay, PingsOk, After, Before, TimerLeft, Lucky;
    var f, g := w.flows[w.order[i]], w.flows[w.order[k]];
    var arm := LuckFor(f, Alive(w, f), now, t);
    var bad := Io(false, 0, now);
    var stay := Luck(Io(true, 0, now), bad);
    var pick := id => if id == w.order[i] then arm else if id == w.order[k] then stay else Luck(bad, bad);
    env := AnyLuck(w, w.order, now, 0, pick);
    AfterIs(w, now, env, pick, i);
    AfterIs(w, now, env, pick, k);
    StaysOverdue(g, Alive(w, g), stay, now);
    forall p | 0 <= p < |w.order| && p != i && Armed(After(w, now, env)[p], now)
      ensures After(w, now, env)[p] == Before(w)[p]
    {
      AfterIs(w, now, env, pick, p);
      if p != k {
        var h := w.flows[w.order[p]];
        NoLuck(h, Alive(w, h), now, bad);
      }
    }
  }

  lemma UnsoundMisses(w: World, s: nat, now: int) returns (env: Env)
    requires Driving(w, s, now) && now > 0 && w.servers[s].restart.None? && !Sound(w, now)
    ensures Still(env, now) && !Covered(w, s, now, env)
  {
    var i: nat, k: nat, t :|
      i < k < |w.order| && MayArmAt(w, now, i, t) && MayStayAt(w, now, k) && !BackedUp(Before(w), now, k, t);
    assert Armed(t, now) && Quiet(w, None);
    hide After, Before, MayArmAt, MayStayAt, TableOk, PingsOk, FlowOk, Covered, Matched, BackedUp;
    env := Misfortune(w, now, i, k, t);
    CoveredIsMatched(w, s, now, env);
    NotMatched(Before(w), After(w, now, env), now, i, k);
  }

  lemma NotMatched(before: seq<int>, ts: seq<int>, now: int, i: nat, k: nat)
    requires |before| == |ts| && i < k < |ts| && Overdue(ts[k], now) && !BackedUp(before, now, k, ts[i])
    requires forall p :: 0 <= p < |ts| && p != i && Armed(ts[p], now) ==> ts[p] == before[p]
    ensures !Matched(ts, now, i)
  {
  }

  /**
   Told from the state before the pass: whatever the sends meet, no armed timer is missed,
   exactly when the world is sound.
   */
  lemma DeadlineCovers(w: World, s: nat, now: int)
    requires Driving(w, s, now) && now > 0 && w.servers[s].restart.None?
    ensures (forall env: Env | Still(env, now) :: Covered(w, s, now, env)) <==> Sound(w, now)
  {
    hide Covered, Sound, TableOk, PingsOk, FlowOk;
    if Sound(w, now) {
      forall env: Env | Still(env, now)
        ensures Covered(w, s, now, env)
      {
        SoundCovers(w, s, now, env);
      }
    } else {
      var env := UnsoundMisses(w, s, now);
    }
  }

  /** In particular, no timer is missed when none can stay overdue. */
  lemma NothingStuckCovers(w: World, s: nat, now: int, env: Env)
    requires Driving(w, s, now) && Still(env, now) && w.servers[s].restart.None?
    requires forall id :: id in w.flows ==> !MayStay(w.flows[id], Alive(w, w.flows[id]), now)
    ensures Covered(w, s, now, env)
  {
    hide Covered, MayStay;
    assert forall k: nat :: k < |w.order| ==> w.order[k] in w.order;
    SoundCovers(w, s, now, env);
  }

  /**
   A pass that misses a timer: a flow waits with an armed timer, and the next one, not yet
   initialised, is overdue with no event that could run it. The server is left without deadline.
   */
  lemma DeadlineMissed(w: World, s: nat, now: int, env: Env)
    requires Driving(w, s, now) && Still(env, now) && |w.order| == 2
    requires Armed(w.flows[w.order[0]].timeout, now)
    requires Overdue(w.flows[w.order[1]].timeout, now) && w.flows[w.order[1]].state == WaitServerInit
    ensures OnTimers(w, s, now, env).servers[s].nextTimeout == 0
    ensures OnTimers(w, s, now, env).flows == w.flows
  {
    var a, b := w.order[0], w.order[1];
    var left := w.flows[a].timeout - now;
    assert Visit(CheckAll, w, a, now, env, 0) == (w, left);
    StuckVisit(w, b, now, env, left);
    hide PingsOk, FlowOk, Visit, Precedes;
    assert w.order == [a, b] && w.order[1..] == [b] && [b][1..] == [];
    assert Sweep(CheckAll, w, [b], now, env, left) == (w, 0);
  }

  /** An overdue flow that is not initialised stays as it is and resets the running minimum. */
  lemma StuckVisit(w: World, id: nat, now: int, env: Env, tout: int)
    requires id in w.flows && Overdue(w.flows[id].timeout, now) && w.flows[id].state == WaitServerInit && tout >= 0
    ensures Visit(CheckAll, w, id, now, env, tout) == (w, 0)
  {
    assert HandleFlow(w, id, TimedOut, None, env) == w;
  }
}
