/**
 The per-flow state machine: an event table picks the next state, a transition
 table picks a handler, and the event a handler returns is fed back.
 Times are microseconds since the epoch; see module Timeval for the timeval
 arithmetic that this representation stands for.
 */
module FlowMachine {
  import opened Base
  import opened FlowKey

  const IRT: int := 3000
  const MRT: int := 1024000
  const MRC: int := 3
  const SECOND: int := 1_000_000
  const LONG_MAX: int := 0x7fff_ffff_ffff_ffff

  datatype FlowState =
    | Idle | WaitServerInit | Send | WaitResp | WaitShortLife | WaitRenew | SendRenew | Failed

  /** `Res(c)` is FEV_RES_BEGIN + c for the result code c of a response. */
  datatype FlowEvent =
    | TimedOut | ServerInitialized | SendNow | MsgSent | Fail | Nothing | ServerRestarted | Ignored
    | Res(code: nat)

  datatype Handler =
    | HWaitResp | HResend | HSend | HShortLife | HSuccess | HSendRenew | HClear

  datatype Ext = Ext(ip: Ip, port: U16)

  /** A parsed response, addressed to a flow. */
  datatype Msg = Msg(kd: Key, version: nat, result: nat, lifetime: U32, epoch: U32,
                     receivedTime: nat, ext: Ext)

  /**
   The fields of pcp_flow_s that the machines read or write. `resends` is a
   history counter: retransmissions sent since retry_count was last reset.
   */
  datatype Flow = Flow(id: nat, kd: Key, bucket: nat, server: nat, state: FlowState, timeout: int,
                       rt: nat, retry: nat, resends: nat, recvEnd: int, result: nat, ext: Ext,
                       lifetime: U32)

  /** What one handler call learns from outside: send outcome, random draw, clock. */
  datatype Io = Io(ok: bool, draw: nat, now: int)

  type Env = nat -> Io

  /** What a handler reads of its server: is it there, and did this flow expose a restart. */
  datatype Ctx = Ctx(alive: bool, trigger: bool)

  // ---------------------------------------------------------------- tables

  const EVENT_ROWS: nat := 42

  /** flow_events_sm, row by row; None stands for pfs_any. */
  function EventRow(i: nat): (row: (Option<FlowState>, FlowEvent, FlowState))
    requires i < EVENT_ROWS
  {
    match i
    case 0 => (None, SendNow, Send)
    case 1 => (Some(WaitServerInit), ServerInitialized, Send)
    case 2 => (Some(WaitResp), Res(0), WaitRenew)
    case 3 => (Some(WaitResp), Res(1), WaitServerInit)
    case 4 => (Some(WaitResp), Res(7), WaitShortLife)
    case 5 => (Some(WaitResp), Res(8), WaitShortLife)
    case 6 => (Some(WaitResp), Res(13), WaitShortLife)
    case 7 => (Some(WaitResp), Res(10), WaitShortLife)
    case 8 => (Some(WaitResp), TimedOut, Send)
    case 9 => (Some(WaitResp), ServerInitialized, Send)
    case 10 => (Some(Send), ServerInitialized, Send)
    case 11 => (Some(Send), MsgSent, WaitResp)
    case 12 => (Some(Send), TimedOut, Send)
    case 13 => (Some(WaitShortLife), TimedOut, Send)
    case 14 => (Some(WaitRenew), TimedOut, SendRenew)
    case 15 => (Some(WaitRenew), Res(0), WaitRenew)
    case 16 => (Some(WaitRenew), Res(1), WaitServerInit)
    case 17 => (Some(WaitRenew), Res(7), SendRenew)
    case 18 => (Some(WaitRenew), Res(8), SendRenew)
    case 19 => (Some(WaitRenew), Res(13), SendRenew)
    case 20 => (Some(WaitRenew), Fail, Send)
    case 21 => (Some(WaitRenew), Res(10), SendRenew)
    case 22 => (Some(SendRenew), MsgSent, WaitRenew)
    case 23 => (Some(SendRenew), TimedOut, SendRenew)
    case 24 => (Some(SendRenew), Fail, Send)
    case 25 => (Some(Send), Ignored, WaitRenew)
    case 26 => (None, ServerRestarted, Send)
    case 27 => (None, Fail, Failed)
    case 28 => (Some(WaitResp), Res(2), Failed)
    case 29 => (Some(WaitResp), Res(3), Failed)
    case 30 => (Some(WaitResp), Res(4), Failed)
    case 31 => (Some(WaitResp), Res(5), Failed)
    case 32 => (Some(WaitResp), Res(9), Failed)
    case 33 => (Some(WaitResp), Res(11), Failed)
    case 34 => (Some(WaitResp), Res(12), Failed)
    case 35 => (Some(WaitRenew), Res(2), Failed)
    case 36 => (Some(WaitRenew), Res(3), Failed)
    case 37 => (Some(WaitRenew), Res(4), Failed)
    case 38 => (Some(WaitRenew), Res(5), Failed)
    case 39 => (Some(WaitRenew), Res(9), Failed)
    case 40 => (Some(WaitRenew), Res(11), Failed)
    case _ => (Some(WaitRenew), Res(12), Failed)
  }

  predicate EventRowMatches(i: nat, st: FlowState, ev: FlowEvent)
    requires i < EVENT_ROWS
  {
    (EventRow(i).0 == None || EventRow(i).0 == Some(st)) && EventRow(i).1 == ev
  }

  /** Result codes a waiting flow treats as final. */
  predicate LongLifeError(code: nat) {
    2 <= code <= 5 || code == 9 || code == 11 || code == 12
  }

  /** Result codes that only ask for a pause. */
  predicate ShortLifeError(code: nat) {
    code == 7 || code == 8 || code == 10 || code == 13
  }

  /** The event table read event by event, without rows or order. */
  function NextState(st: FlowState, ev: FlowEvent): (next: Option<FlowState>) {
    match ev
    case SendNow => Some(Send)
    case ServerRestarted => Some(Send)
    case Fail => Some(if st == WaitRenew || st == SendRenew then Send else Failed)
    case ServerInitialized => if st == WaitServerInit || st == WaitResp || st == Send then Some(Send) else None
    case TimedOut =>
      if st == WaitResp || st == Send || st == WaitShortLife then Some(Send)
      else if st == WaitRenew || st == SendRenew then Some(SendRenew) else None
    case MsgSent => if st == Send then Some(WaitResp) else if st == SendRenew then Some(WaitRenew) else None
    case Ignored => if st == Send then Some(WaitRenew) else None
    case Nothing => None
    case Res(c) =>
      if st != WaitResp && st != WaitRenew then None
      else if c == 0 then Some(WaitRenew)
      else if c == 1 then Some(WaitServerInit)
      else if LongLifeError(c) then Some(Failed)
      else if ShortLifeError(c) then Some(if st == WaitResp then WaitShortLife else SendRenew)
      else None
  }

  /** States that no timeout moves on, and that pcp_flow_updated leaves alone. */
  predicate Parked(st: FlowState) {
    st == WaitServerInit || st == Idle || st == Failed
  }

  /** A row that matches says what NextState says, unless an earlier row shadows it. */
  lemma RowAgrees(i: nat, st: FlowState, ev: FlowEvent)
    requires i < EVENT_ROWS && EventRowMatches(i, st, ev)
    requires i == 27 ==> st != WaitRenew && st != SendRenew
    ensures NextState(st, ev) == Some(EventRow(i).2)
  {
  }

  /** A row that fires, for every pair that NextState covers. */
  function RowFor(st: FlowState, ev: FlowEvent): (i: nat)
    requires NextState(st, ev).Some?
    ensures i < EVENT_ROWS && EventRowMatches(i, st, ev)
  {
    match ev
    case SendNow => 0
    case ServerRestarted => 26
    case Fail => 27
    case ServerInitialized => if st == WaitServerInit then 1 else if st == WaitResp then 9 else 10
    case TimedOut =>
      if st == WaitResp then 8 else if st == Send then 12 else if st == WaitShortLife then 13
      else if st == WaitRenew then 14 else 23
    case MsgSent => if st == Send then 11 else 22
    case Ignored => 25
    case Res(c) =>
      (match c case 0 => 2 case 1 => 3 case 7 => 4 case 8 => 5 case 13 => 6 case 10 => 7
        case 2 => 28 case 3 => 29 case 4 => 30 case 5 => 31 case 9 => 32 case 11 => 33 case _ => 34) +
      (if st == WaitResp then 0
       else match c case 0 => 13 case 1 => 13 case 7 => 13 case 8 => 13 case 13 => 13 case 10 => 14 case _ => 7)
  }

  /** The table's first-match reading is the event-by-event reading. */
  lemma EventTableMeaning(st: FlowState, ev: FlowEvent, i: nat)
    requires i <= EVENT_ROWS && (i < EVENT_ROWS ==> EventRowMatches(i, st, ev))
    requires forall k: nat :: k < i ==> !EventRowMatches(k, st, ev)
    ensures NextState(st, ev) == if i < EVENT_ROWS then Some(EventRow(i).2) else None
  {
    assert i == 27 ==> !EventRowMatches(20, st, ev) && !EventRowMatches(24, st, ev);
    if i < EVENT_ROWS {
      RowAgrees(i, st, ev);
    } else if NextState(st, ev).Some? {
      var shadow := RowFor(st, ev);
      assert false;
    }
  }

  const TRANSITION_ROWS: nat := 9

  /** flow_transitions, row by row. */
  function TransitionRow(i: nat): (row: (Option<FlowState>, FlowState, Handler))
    requires i < TRANSITION_ROWS
  {
    match i
    case 0 => (None, WaitResp, HWaitResp)
    case 1 => (Some(WaitResp), Send, HResend)
    case 2 => (None, Send, HSend)
    case 3 => (None, WaitShortLife, HShortLife)
    case 4 => (Some(WaitResp), WaitRenew, HSuccess)
    case 5 => (None, SendRenew, HSendRenew)
    case 6 => (Some(WaitRenew), WaitRenew, HSuccess)
    case 7 => (None, WaitServerInit, HClear)
    case _ => (None, Failed, HClear)
  }

  predicate TransitionRowMatches(i: nat, from: FlowState, to: FlowState)
    requires i < TRANSITION_ROWS
  {
    (TransitionRow(i).0 == None || TransitionRow(i).0 == Some(from)) && TransitionRow(i).1 == to
  }

  /** The transition table read by target state. */
  function HandlerFor(from: FlowState, to: FlowState): (h: Option<Handler>) {
    match to
    case WaitResp => Some(HWaitResp)
    case Send => Some(if from == WaitResp then HResend else HSend)
    case WaitShortLife => Some(HShortLife)
    case WaitRenew => if from == WaitResp || from == WaitRenew then Some(HSuccess) else None
    case SendRenew => Some(HSendRenew)
    case WaitServerInit => Some(HClear)
    case Failed => Some(HClear)
    case Idle => None
  }

  lemma TransitionTableMeaning(from: FlowState, to: FlowState, i: nat)
    requires i <= TRANSITION_ROWS && (i < TRANSITION_ROWS ==> TransitionRowMatches(i, from, to))
    requires forall k: nat :: k < i ==> !TransitionRowMatches(k, from, to)
    ensures HandlerFor(from, to) == if i < TRANSITION_ROWS then Some(TransitionRow(i).2) else None
  {
    assert 1 < i ==> !TransitionRowMatches(1, from, to);
    if i == TRANSITION_ROWS {
      assert !TransitionRowMatches(0, from, to) && !TransitionRowMatches(2, from, to);
      assert !TransitionRowMatches(3, from, to) && !TransitionRowMatches(4, from, to);
      assert !TransitionRowMatches(5, from, to) && !TransitionRowMatches(6, from, to);
      assert !TransitionRowMatches(7, from, to) && !TransitionRowMatches(8, from, to);
    }
  }

  // -------------------------------------------------------------- handlers

  /** The fields that the event machine never writes. */
  predicate SameIdentity(f: Flow, g: Flow) {
    g.id == f.id && g.kd == f.kd && g.bucket == f.bucket && g.server == f.server && g.lifetime == f.lifetime
  }

  /** The jitter factor of PCP_RT over 8192: 1024 - (rand() & 2047) around 8192. */
  function Jitter(draw: nat): (j: nat)
    ensures 7169 <= j <= 9216
  {
    8192 + 1024 - draw % 2048
  }

  /** PCP_RT in 32-bit unsigned arithmetic: double, clamp to IRT..MRT, jitter, shift. */
  function PcpRt(rt: nat, draw: nat): (next: nat) {
    var doubled := rt * 2 % TWO32;
    Jitter(draw) * Min(Max(doubled, IRT), MRT) % TWO32 / 8192
  }

  /** (lifetime end - now in whole seconds) >> 1: an arithmetic shift rounds down. */
  function HalfLeft(recvEnd: int, now: int): int {
    (recvEnd - now / SECOND) / 2
  }

  function LifetimeEnd(m: Msg): int {
    if m.lifetime > LONG_MAX - m.receivedTime then LONG_MAX else m.receivedTime + m.lifetime
  }

  function OnSend(f: Flow, c: Ctx, io: Io): (r: (Flow, FlowEvent)) {
    if !c.alive then (f, Fail)
    else if c.trigger then (f, Ignored)
    else if !io.ok then (f, Fail)
    else (f.(rt := IRT, timeout := io.now + IRT * 1000), MsgSent)
  }

  function OnResend(f: Flow, c: Ctx, io: Io): (r: (Flow, FlowEvent)) {
    if !c.alive then (f, Fail)
    else if f.retry + 1 >= MRC || !io.ok then (f.(retry := f.retry + 1), Fail)
    else
      var rt := PcpRt(f.rt, io.draw);
      (f.(retry := f.retry + 1, resends := f.resends + 1, rt := rt, timeout := io.now + rt * 1000), MsgSent)
  }

  function OnSendRenew(f: Flow, c: Ctx, io: Io): (r: (Flow, FlowEvent)) {
    if !c.alive || !io.ok then (f, Fail)
    else
      var half := HalfLeft(f.recvEnd, io.now);
      (f.(timeout := io.now + half * SECOND), if half == 0 then Fail else MsgSent)
  }

  function OnSuccess(f: Flow, m: Msg, io: Io): (r: Flow) {
    var end := LifetimeEnd(m);
    f.(recvEnd := end,
       ext := if f.kd.op == OP_MAP || f.kd.op == OP_PEER then m.ext else f.ext,
       result := m.result,
       timeout := if m.lifetime == 0 then 0 else io.now + HalfLeft(end, io.now) * SECOND)
  }

  function OnClear(f: Flow, m: Option<Msg>): (r: Flow) {
    f.(timeout := 0, result := if m.Some? then m.value.result else f.result)
  }

  /** One handler call: the flow it leaves and the event it returns. */
  function RunHandler(h: Handler, f: Flow, c: Ctx, m: Option<Msg>, io: Io): (r: (Flow, FlowEvent))
    requires h == HShortLife || h == HSuccess ==> m.Some?
    ensures SameIdentity(f, r.0) && r.0.state == f.state
    ensures h == HShortLife || h == HSuccess || h == HClear ==> r.1 == Nothing
    ensures h == HWaitResp ==> r.1 == Nothing || r.1 == Fail
    ensures h == HSend || h == HResend || h == HSendRenew ==> r.1 == MsgSent || r.1 == Fail || r.1 == Ignored
    ensures r.1 == Ignored ==> h == HSend && c.trigger
  {
    match h
    case HSend => OnSend(f, c, io)
    case HResend => OnResend(f, c, io)
    case HSendRenew => OnSendRenew(f, c, io)
    case HShortLife => (f.(result := m.value.result, timeout := io.now + m.value.lifetime * SECOND), Nothing)
    case HSuccess => (OnSuccess(f, m.value, io), Nothing)
    case HClear => (OnClear(f, m), Nothing)
    case HWaitResp => (f, if f.timeout < io.now then Fail else Nothing)
  }

  // -------------------------------------------------------------- draining

  /** Where handle_flow_event leaves a flow, how many handlers ran, and the oracle position. */
  datatype Drained = Drained(flow: Flow, tick: nat, runs: nat)

  /** Bounds the handlers still to run when `ev` is fed to a flow in state `st`. */
  function DrainRank(st: FlowState, ev: FlowEvent): nat {
    if ev == Nothing then 0
    else if st == WaitResp && ev == Fail then 1
    else if st == Send && (ev == Fail || ev == Ignored || ev == MsgSent) then 2
    else if st == SendRenew && (ev == Fail || ev == MsgSent) then 3
    else 4
  }

  /** One turn of the loop in handle_flow_event: the flow stays, or a handler ran and returned an event. */
  datatype Turn = Stays(flow: Flow) | Ran(flow: Flow, ev: FlowEvent)

  function TakeTurn(f: Flow, ev: FlowEvent, c: Ctx, m: Option<Msg>, io: Io): (r: Turn)
    requires ev.Res? ==> m.Some?
    ensures SameIdentity(f, r.flow)
    ensures r.Ran? && r.ev != Nothing ==> !r.ev.Res? && DrainRank(r.flow.state, r.ev) < DrainRank(f.state, ev)
  {
    match NextState(f.state, ev)
    case None => Stays(f)
    case Some(next) =>
      match HandlerFor(f.state, next)
      case None => Stays(f.(state := next))
      case Some(h) =>
        var (g, ev') := RunHandler(h, f.(state := next), c, m, io);
        Ran(g, ev')
  }

  /** handle_flow_event: follow the tables until a handler returns fev_none or no row applies. */
  function Drain(f: Flow, ev: FlowEvent, c: Ctx, m: Option<Msg>, env: Env, tick: nat): (r: Drained)
    requires ev.Res? ==> m.Some?
    ensures SameIdentity(f, r.flow) && r.tick == tick + r.runs
    decreases DrainRank(f.state, ev)
  {
    match TakeTurn(f, ev, c, m, env(tick))
    case Stays(g) => Drained(g, tick, 0)
    case Ran(g, ev') =>
      if ev' == Nothing then Drained(g, tick + 1, 1)
      else
        var rest := Drain(g, ev', c, m, env, tick + 1);
        Drained(rest.flow, rest.tick, rest.runs + 1)
  }
}
