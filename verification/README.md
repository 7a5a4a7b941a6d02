# A model of the PCP / NAT-PMP client library

libpcpnatpmp asks a NAT or firewall for port mappings, over PCP (RFC 6887) and NAT-PMP (RFC 6886).
An application registers servers, opens flows, and calls `pcp_pulse` now and then. Everything else is
done by two coupled state machines: one per flow, one per server.

This project models the library's event handler, its flow table and server array, its message builder
and parser, its time and epoch arithmetic, the application calls that feed them, and the echoing peer
of the test server. It proves what every step keeps and what holds over whole runs.

## How the model is built

A `World` is one context: the flows by id, the order in which the flow table is iterated, the servers,
and the position in an oracle. The oracle answers what the code learns from outside: whether a message
went out, the random draw for the backoff, the clock. It is arbitrary, so every statement is about every
outcome. The clock stands still while one server is driven and may differ from one drive to the next.

The handlers are functions on worlds. The code that loops or updates in place is imperative here too,
and each method is tied to its function:

| module | models |
|---|---|
| `Base`, `FlowKey` | byte orders, the key layout and the bucket hash |
| `FlowMachine`, `FlowRuns`, `Renewal` | the two tables of the flow machine, its handlers, what every event keeps, the renewal schedule |
| `ServerMachine`, `ServerRuns` | the server handlers and sweeps, and what each of them keeps |
| `Drive`, `Recovery`, `Pulse` | the drive loop, restart recovery and the fate of the flow that exposed the restart, a pulse over all servers |
| `Answers`, `Failures`, `Pings` | what a drive makes of every flow: after an ordinary answer, when a server is given up or refuses a version, when it is pinged |
| `TimerPass`, `Deadline` | what a timer pass makes of each flow, told from before it, and the deadline it leaves |
| `Engine`, `Api` | a context updated in place: table scans, event loops, all handlers, the pulse, the application calls |
| `Client`, `ClientRuns`, `Opening` | the application calls on worlds, every run of a client, the flows a call opens |
| `RoundTrip`, `Grants` | a request's way back to its flow, and the mapping its answer leaves there |
| `FlowTable`, `SweepOrder`, `ServerArray`, `Metadata` | chained hash table on the heap and its iteration order, doubling array, metadata list |
| `Wire`, `Builder`, `Sending`, `OptionWalk`, `Parser`, `Echo`, `Reading` | message layout, the buffer writer, the send loop, option walks, the parser, the peer's answer, messages read by the standards' offsets |
| `Timeval`, `Epoch` | in-place `timeval` arithmetic, the restart test |

The handlers of `Engine.Context` that are not listed below are the in-place forms of the functions in
`ServerMachine`; `Engine.Context.RunServer` ties them together.

Times in the machines are microsecond totals; `Timeval` shows that the in-place arithmetic acts on totals.
`PCP_MAX_PING_COUNT` is the parameter `maxPing`, since the builds disagree on it.

## Where the code departs from what one would expect

The model follows the code. For each of these the lemmas named say when the expected property holds and
show what happens otherwise.

- A nonce set by the application leaves the flow in its old bucket, and before version 2 answers are looked
  up under the server's own nonce: `NonceOverride`, `NonceOverrideLoses`.
- A timer pass forgets every timer it found before one that stays overdue: `DeadlineCovers`, `DeadlineMissed`.
- The flow that exposed a restart is declared successful, even if it has just been refused: `TriggerFate`
  says for which flows surely, possibly or never, `RefusalClaimsSuccess` gives the refused case.
- Registering a known server again without finding a local address, and then deleting its ping flow, leaves
  a dangling pointer, and nothing else does: `StepKeeps`, `DeleteKeepsPings`, `StepClean`, `LostServerDangles`.
- A server that is not link-local but took a scope from the client's own address is not found again, and a
  link-local one that did may be shadowed by, or hide, another: `ReachableServers`, `DeafServers`,
  `SecondIsShadowed`, `HiddenServers`, `FreedSlotHides`.
- A renewal that runs after expiry sets a timer in the past instead of falling back: `FallsBackInLastSecond`,
  and so does the first timer after a late success: `FirstTimer`.
- `fev_failed` sends a flow that holds a mapping back to sending, not to failure: `FailEventOutcome`.
- A peer that refuses a version answers in the request's length under its own version, which the client drops if
  that version's response is longer: `RefusalParses`.
- A response with result code 6, or above 13, changes nothing: `UnknownResultsChangeNothing`.
- What NAT-PMP cannot express yields an empty message that counts as sent, and its flow waits for an answer
  to nothing: `BuildOutcome`, `NothingIsAwaited`.
- The 32-bit epoch test reports a restart for the two largest elapsed times: `EpochTestIsExact`, `EpochTestWraps`.
- The peer takes one option too many on a version 1 PEER request: `PeerVisitsOptions`.

## Model

| member | source | states |
|---|---|---|
| FlowKey.KeyBytesInjective | lib/src/pcp_client_db.h:66-80 | Two keys with the same 76 bytes are the same key, so comparing bytes compares keys |
| FlowKey.ComputeFlowKey | lib/src/pcp_client_db.c:48-62 | The byte loop gives the bucket of the key's bytes, always below 64 |
| FlowKey.HashIsXorOfWords | lib/src/pcp_client_db.c:52-57 | For any length divisible by 4 the byte-wise loop is the xor of the 32-bit words |
| FlowKey.NonceMovesBucket | lib/src/pcp_client_db.c:59 | For every key, first nonce byte 0 and first nonce byte 1 fall in different buckets |
| FlowMachine.EventTableMeaning | lib/src/pcp_event_handler.c:272-319 | The first matching row of the 42, for every state and event, is what the table means event by event |
| FlowMachine.TransitionTableMeaning | lib/src/pcp_event_handler.c:251-262 | The first matching transition row picks the handler named by the target state |
| FlowRuns.PcpRtExact | lib/src/pcp_event_handler.c:66-70 | PCP_RT equals the unbounded formula, doubled, clamped to 3 s and 1024 s and jittered by (9216 - draw mod 2048) / 8192, exactly when the 32-bit product does not wrap |
| FlowRuns.BackoffIsExact | lib/src/pcp_event_handler.c:423-461 | For every waiting flow and draw the next delay is the exact jittered doubling, within an eighth either way |
| FlowRuns.DrainEnds | lib/src/pcp_event_handler.c:568-645 | Any event, in any state, with any handler outcomes, runs at most four handlers |
| FlowRuns.FourHandlersReached | lib/src/pcp_event_handler.c:568-645 | The bound of four is attained |
| FlowRuns.DrainLeavesSending | lib/src/pcp_event_handler.c:568-645 | An event that has a row never leaves the flow in a sending state |
| FlowRuns.DrainKeepsFlowOk | lib/src/pcp_event_handler.c:395-645 | Every event keeps: a waiting flow has a timer and a delay below the ceiling for its retry count, and at most two resends since the last reset |
| FlowRuns.UnknownResultsChangeNothing | lib/src/pcp_event_handler.c:272-319 | A response changes nothing exactly when the flow awaits none or its result code is 6 or above 13 |
| FlowRuns.DrainKeepsGrant | lib/src/pcp_event_handler.c:272-319 | Without a response, and unless it exposed a restart, a flow gains no mapping |
| FlowRuns.ResponseGrant | lib/src/pcp_event_handler.c:481-515 | A response gives a mapping only with result 0, only to a flow that awaits one, and only its own address, port and end: the second received plus the lifetime, held at 2^63 - 1 |
| FlowRuns.SuccessIsTaken | lib/src/pcp_event_handler.c:481-515 | A flow that awaits a response takes every success and holds its mapping |
| FlowRuns.DrainKeepsMapping | lib/src/pcp_event_handler.c:395-564 | Without a response no event rewrites a flow's address, port or lifetime end, restart trigger or not |
| FlowRuns.ResponseMapping | lib/src/pcp_event_handler.c:481-515 | A response rewrites them only with result 0, for a flow that awaits it |
| FlowRuns.SendOutcome | lib/src/pcp_event_handler.c:395-465 | Under any clock, a flow that goes to the sending state ends waiting exactly when its message went out and the timer it set has not passed; otherwise failed, with no timer |
| FlowRuns.RestartResends | lib/src/pcp_event_handler.c:395-465 | Told that its server restarted, a flow is sent once more, with its next delay and counts if it was waiting and as a fresh request otherwise, or it fails |
| FlowRuns.ResponseAnswers | lib/src/pcp_event_handler.c:467-515 | The flow that any response leaves, in closed form, unless it holds a mapping and is asked to pause |
| FlowRuns.PauseRenews | lib/src/pcp_event_handler.c:291-295 | In that case it renews at once: the claim with a new timer, a fresh request, or failure, by what its sends meet |
| FlowRuns.RestartTriggerClaimsSuccess | lib/src/pcp_event_handler.c:404-406 | One event: the flow that exposed a restart is put in the renewal state as it is, from any state but waiting; over the drive see Recovery.TriggerFate |
| FlowRuns.FailEventOutcome | lib/src/pcp_event_handler.c:294-302 | The exact flow that fev_failed leaves: one that holds a mapping is sent afresh, or fails if its server is gone or the send fails; any other fails, with no timer |
| FlowRuns.InitializedSends | lib/src/pcp_event_handler.c:273-282 | The exact flow that fev_server_initialized leaves: one that is not yet answered is sent, again if it was waiting; any other stays as it was |
| Renewal.RenewalSchedule | lib/src/pcp_event_handler.c:517-540 | With two or more seconds left the next timer lies half of them ahead and before expiry, and the mapping stays |
| Renewal.FallsBackInLastSecond | lib/src/pcp_event_handler.c:531-536 | A renewal gives way to a fresh request exactly in the last second; after expiry its timer lies in the past |
| Renewal.ZeroLifetimeDisarms | lib/src/pcp_event_handler.c:505-507 | A success that grants lifetime 0 leaves no timer |
| Renewal.FirstTimer | lib/src/pcp_event_handler.c:505-511 | The first timer after a success lies half of the seconds left, counted to the second received plus the lifetime, ahead and before expiry, is due at once in the last second, and lies in the past after expiry |
| Renewal.FirstTimerInTime | lib/src/pcp_event_handler.c:487-511 | A success for L >= 2 seconds, handled in the second it was received: the mapping ends L seconds after that second and its first timer is L/2 seconds ahead |
| Renewal.StillRenewing | lib/src/pcp_event_handler.c:517-540 | Whatever the handlers meet, a flow that keeps its claim through a timeout has sent its renewal and has the half-way timer |
| Renewal.RenewalsAreLogarithmic | lib/src/pcp_event_handler.c:517-540 | Over any series of timeouts through which a flow keeps its claim unanswered, n of them need more than 2^n seconds of lifetime |
| Epoch.EpochTestIsExact | lib/src/pcp_utils.h:148-164 | For all 32-bit elapsed times the wrapping test is the rule of section 8.5 of RFC 6887, or one of them is 2^32 - 2 or more |
| Epoch.EpochTestWraps | lib/src/pcp_utils.h:162-163 | Equal clocks at the bound are taken for a restart though the rule says none |
| Epoch.NoFalseRestart | lib/src/pcp_utils.h:148-164 | A server within two seconds of the client's elapsed time is never taken for restarted |
| Epoch.BackwardStepIsSeen | lib/src/pcp_utils.h:148-164 | Any backward step of 1 to 2^31 seconds is reported while under 2^30 seconds passed |
| Timeval.Timeval.Align | lib/src/pcp_utils.h:166-173 | Normalises any signed value and keeps its total |
| Timeval.Comp | lib/src/pcp_utils.h:175-189 | The sign of the true difference; both totals stay, also when both arguments are the same object |
| Timeval.Subtract | lib/src/pcp_utils.h:191-216 | The exact positive difference, or zero with flag 1, also when the result aliases an argument |
| ServerMachine.AddFlowTable | lib/src/pcp_client_db.c:133-159 | A new flow takes its place behind all flows of its own and lower buckets, and the iteration order stays sorted by bucket and age |
| ServerRuns.HandleFlowKeeps | lib/src/pcp_event_handler.c:568-645 | A flow event keeps the world well formed and touches no other flow |
| ServerRuns.SweepKeeps | lib/src/pcp_client_db.c:211-230 | A pass over the flows keeps the world well formed; only the restart trigger may gain a mapping |
| ServerRuns.PingLoopKeeps | lib/src/pcp_event_handler.c:823-844 | Trying one ping after another ends, keeps the world well formed and gives no flow a mapping; the server waits with a deadline ahead, or rests without one |
| ServerRuns.NextVersionInRange | lib/src/pcp_event_handler.c:889-912 | Where it is used, the 8-bit next_version lies in 0..2 and differs from the refused version |
| ServerRuns.OnVersionNegotiationKeeps | lib/src/pcp_event_handler.c:889-947 | Negotiation keeps versions in range and ping pointers valid, with or without a new announce flow |
| ServerRuns.ProcessKeeps | lib/src/pcp_event_handler.c:650-707 | A response moves only the flow it is meant for |
| ServerRuns.ResponseKeeps | lib/src/pcp_event_handler.c:1167-1202 | Any response, in any resting state, leaves a server that can be driven on |
| ServerRuns.TimeoutKeeps | lib/src/pcp_event_handler.c:1167-1202 | Each due timeout keeps the world well formed, clears the restart trigger and lowers the rank over state, deadline, ping pointer and pings left |
| Drive.SettleIsBounded | lib/src/pcp_event_handler.c:1224-1231 | The while(1) loop ends within PCP_MAX_PING_COUNT + 3 steps |
| Drive.SettleKeeps | lib/src/pcp_event_handler.c:1224-1231 | It leaves the server in one of five resting states, nothing overdue, no restart pending, all other servers untouched |
| Drive.IterKeeps | lib/src/pcp_event_handler.c:1209-1250 | The same for a whole drive, with or without a response; only the answered flow may gain a mapping |
| Recovery.RestartBroadcast | lib/src/pcp_event_handler.c:958-966 | Every other flow of the server is sent again once or failed, by what one send met; flows of other servers are unchanged, and the trigger is cleared |
| Recovery.SweepSkips | lib/src/pcp_event_handler.c:709-744 | A timer pass does not touch a flow whose timer is unset or ahead |
| Recovery.ResponseEntersRestart | lib/src/pcp_event_handler.c:997-1006 | A response puts the server in restart exactly when it shows one, with the answered flow as trigger; when it does, told from the clocks, see Answers.NoticedByClocks |
| Recovery.TakesMessage | lib/src/pcp_event_handler.c:650-707 | The step that takes a message answers the flow it is meant for and moves no other |
| Recovery.RestartRecovery | lib/src/pcp_event_handler.c:1069-1076 | When a response exposes a restart, at the end of that drive every other flow of the server is exactly its old self sent once more, with a future timer, or failed because the send failed or its resends were used up |
| Recovery.TriggerFate | lib/src/pcp_event_handler.c:395-406 | Told from the flow and the response before the drive: the trigger is declared successful whatever its sends meet exactly when the response leaves it out of the waiting state with no overdue timer, and for some outcome exactly when also a renewal that is not due in the last second could save it, or it renews at once |
| Recovery.TriggerOutcome | lib/src/pcp_event_handler.c:958-1011 | In every drive the trigger is declared successful or was sent again or failed; surely claimed, it ends exactly as the response left it, in the renewal state |
| Recovery.TriggerCourse | lib/src/pcp_event_handler.c:809-818 | The exact flow that the drive leaves the trigger as, by what its sends meet in the broadcast and in the timer pass |
| Recovery.TriggerKeepsMapping | lib/src/pcp_event_handler.c:997-1006 | The trigger's mapping at the end of the drive is the one it had, or the one a success it awaited has just granted |
| Recovery.RefusalClaimsSuccess | lib/src/pcp_event_handler.c:997-1006 | A flow refused for good by the response that exposes the restart ends up reported as successful, with its old mapping, no timer and the refusal as result |
| Recovery.TargetGrant | lib/src/pcp_event_handler.c:650-707 | Over a whole drive, the answered flow either keeps its claim as it was or holds the mapping of a result-0 response it awaited |
| Answers.NoticedByClocks | lib/src/pcp_utils.h:148-164 | With c seconds gone here and e on the server since the baseline, a server in service that sends a message is taken for restarted exactly when c + 2 < e - e/16 or e + 2 < c - c/16 |
| Answers.StepBackNoticed | lib/src/pcp_utils.h:148-164 | A server whose clock went back by 1 to 2^31 seconds is taken for restarted while under 2^30 seconds have gone here |
| Answers.FirstMessageTrusted | lib/src/pcp_utils.h:151-155 | The first message of a server never shows a restart |
| Answers.InitBroadcast | lib/src/pcp_event_handler.c:949-956 | Every flow of the server that is not yet answered is sent, again if it was waiting, or fails, by what one send met; its other flows with a timer unset or ahead, and all flows of other servers, are unchanged |
| Answers.PingAnswered | lib/src/pcp_event_handler.c:873-887 | When an ordinary answer reaches a server that was pinged, then at the end of that drive the server is in service, every flow of it that is not yet answered has been sent, with its exact timer, or failed because the send failed or its resends were used up, and every other one with a timer unset or ahead is as the answer left it |
| Answers.AnswerInService | lib/src/pcp_event_handler.c:968-1029 | In service, an answer that shows no restart leaves every flow with its timer unset or ahead as the answer made it |
| Answers.BaselineMoves | lib/src/pcp_event_handler.c:997-1011 | Over the whole drive the epoch baseline moves to the message exactly if it is the first, shows a restart or reaches a server given up, and the NAT-PMP address to that of an announce and to no other |
| Failures.FailBroadcast | lib/src/pcp_event_handler.c:1031-1046 | Giving a server up fails its flows, but sends afresh those that hold a mapping; flows of other servers are unchanged |
| Failures.MismatchGivesUp | lib/src/pcp_event_handler.c:987-991 | A server that reports an address mismatch is given up for an hour, with that outcome for every flow |
| Failures.SilenceGivesUp | lib/src/pcp_event_handler.c:846-850 | So is one whose last ping goes unanswered |
| Failures.VersionRefused | lib/src/pcp_event_handler.c:889-912 | A refused version is followed by the one the server offers, or the next lower one if it offers the same; when version 0 is refused the server is given up |
| Failures.PingTakesFirst | lib/src/pcp_event_handler.c:823-844 | The flows that wait for the server are tried in table order: those before the one that goes out fail, those behind it stay, and the server waits for its timer; if none goes out all have failed and the server has no deadline |
| Failures.TerminatedRests | lib/src/pcp_event_handler.c:1094-1101 | A terminated server has no deadline and is driven no more; its flows stay as they are |
| Pings.PingDrive | lib/src/pcp_event_handler.c:823-844 | That is what a whole drive of a server due for a ping does, and its ping count starts at 0 |
| Pings.RepingDrive | lib/src/pcp_event_handler.c:1078-1092 | A server that was given up is pinged in the same way at version 2 once its hour is over, whether a timeout or a message comes |
| Pings.RefusalWhileGivenUp | lib/src/pcp_event_handler.c:1063-1068 | Within the hour a refusal from it changes nothing at all |
| Pings.PingTimesOut | lib/src/pcp_event_handler.c:846-871 | A ping that goes unanswered while pings are left: the exact flow its timeout leaves; the server waits for the new timer with one more ping counted, or is given up if the flow fails, or starts a new round if the flow is gone |
| Pings.TriesVersion | lib/src/pcp_event_handler.c:913-946 | After a refusal with version 1 or 2 to try: the ping flow at hand, or the first that waits, goes out at that version with its counters cleared, or the server is given up; with no flow to use the server rests |
| Pings.FallsBackToNatPmp | lib/src/pcp_event_handler.c:770-784 | Refused down to version 0: one announce flow with the server's addresses and nonce goes out as ping, and the old ping flow waits for the server again, without a timer |
| Pings.AnnounceIsAnswered | lib/src/pcp_event_handler.c:655-668 | Any NAT-PMP announce from that server is then meant for that flow |
| Pings.AnnounceReachesPing | lib/src/pcp_event_handler.c:655-662 | A NAT-PMP announce is meant for a flow exactly if that is an announce and the ping of a server at version 0 |
| TimerPass.TimedOutEnds | lib/src/pcp_event_handler.c:283-293 | The exact flow that a timeout leaves in every state, by what its sends meet |
| Pulse.DriveFromKeeps | lib/src/pcp_client_db.c:374-394 | Driving the servers one by one leaves the world at rest, touches none before the start, and gives no flow a mapping |
| Pulse.PulseKeeps | lib/src/pcp_event_handler.c:1255-1320 | Every pulse, with any datagram, keeps the world at rest; only the answered flow may gain a mapping |
| Pulse.DriveFromDeadline | lib/src/pcp_event_handler.c:1233-1250 | The reported timeout is exactly the least of the caller's non-zero value and every server's remaining time; 0 means there is none |
| Deadline.FoldIsExact | lib/src/pcp_event_handler.c:728-743 | Folding any list of timers gives the least of those that no overdue timer follows |
| Deadline.SweepFolds | lib/src/pcp_event_handler.c:1013-1029 | A timer pass folds the timers its flows are left with |
| Deadline.DeadlineCovers | lib/src/pcp_event_handler.c:1013-1029 | Told from the world before the pass: whatever the sends meet, the deadline is set and no later than every armed timer, exactly when each timer that may end up armed before one that may stay overdue is backed up by an armed one behind both |
| Deadline.DeadlineFolds | lib/src/pcp_event_handler.c:1013-1029 | The deadline is a flow's timer or unset, and no later than every armed one exactly when each is matched by one that no overdue timer follows |
| Deadline.NothingStuckCovers | lib/src/pcp_event_handler.c:1013-1029 | No timer is missed when none can stay overdue |
| TimerPass.TimedOutLeaves | lib/src/pcp_event_handler.c:709-726 | The timer that a timeout leaves a flow with, for every state and outcome of its sends |
| TimerPass.StaysOverdue | lib/src/pcp_event_handler.c:709-744 | A timer is overdue after its turn exactly when it was, and no timeout moves its flow on or its renewal goes out after expiry |
| TimerPass.SweepVisits | lib/src/pcp_client_db.c:211-230 | A pass makes of each flow what a single visit, at some position of the oracle, makes of it |
| TimerPass.AnyLuck | lib/src/pcp_event_handler.c:709-744 | Every combination of outcomes for the flows of a pass comes about with some oracle |
| Deadline.DeadlineMissed | lib/src/pcp_event_handler.c:728-743 | An armed flow followed by an overdue uninitialised one leaves the server without a deadline |
| Client.ServerByIp | lib/src/pcp_client_db.c:402-429 | The lowest live server with that address and scope, or none |
| Client.NewFlowOnKeeps | lib/src/pcp_api.c:344-402 | A new flow keeps the client at rest, every other flow and server as it was, and of its own server all but the deadline |
| ClientRuns.RegisterKeeps | lib/src/pcp_server_discovery.c:189-245 | Every registration keeps the client at rest and every flow as it was; one of an unknown version changes nothing |
| ClientRuns.RegisterLoses | lib/src/pcp_server_discovery.c:231-241 | A known server registered again without a local address goes unused, and no other server changes |
| ClientRuns.UpdateKeeps | lib/src/pcp_event_handler.c:1322-1340 | A changed flow has its new lifetime and is due now with its server, it sends again unless it is parked, nothing else changes, and the client stays at rest |
| ClientRuns.CloseKeeps | lib/src/pcp_api.c:625-645 | A parked flow that is closed fails on the spot; any other is due now, with lifetime 0 and its server due; nothing else changes, and the client stays at rest |
| ClientRuns.NonceKeeps | lib/src/pcp_api.c:503-515 | A new nonce changes the flow's key and nothing else, and keeps the client at rest |
| ClientRuns.DeletesOnly | lib/src/pcp_client_db.c:100-131 | A delete takes out that flow and clears the ping pointers to it of servers in use; nothing else changes |
| ClientRuns.DeletedTable | lib/src/pcp_client_db.c:184-209 | Taking a flow out keeps the iteration order sorted and complete |
| ClientRuns.DeleteKeepsPings | lib/src/pcp_client_db.c:100-131 | Deleting a flow leaves every ping pointer valid exactly when its server's slot is in use or does not point at it |
| ClientRuns.LostServerDangles | lib/src/pcp_server_discovery.c:231-241 | A registration that loses a server with a ping out makes the delete of that ping flow the one that leaves a dangling pointer |
| ClientRuns.StepClean | lib/src/pcp_server_discovery.c:231-241 | Unused slots stay free of ping pointers exactly if the call does not lose a server that has a ping out, and then no delete dangles |
| ClientRuns.RunClean | lib/src/pcp_server_discovery.c:231-241 | Over any run without such a registration no delete can dangle |
| ClientRuns.OpenKeeps | lib/src/pcp_api.c:489-497 | pcp_new_flow over all servers keeps the client at rest, every existing flow as it was, and every server but for its deadline |
| Opening.OpensFlows | lib/src/pcp_api.c:344-402 | pcp_new_flow opens exactly one flow on each server in use that is working and has the local address's family and scope, or on every such server if no address is given, with the caller's ends, lifetime and mapping and the server's address, nonce and default local address, to be sent at once if the server is in service; it is due now, and every other server and flow is as it was |
| ClientRuns.StepKeeps | lib/src/pcp_event_handler.c:1255-1340 | Every application call and pulse keeps the client at rest exactly if it is not the delete of the ping flow of a lost server |
| ClientRuns.InitialOk | lib/src/pcp_api.c:93-133 | A fresh context is at rest |
| ClientRuns.RunKeeps | lib/src/pcp_event_handler.c:1255-1340 | Every world of every run, whatever the order of calls and pulses, is at rest |
| ClientRuns.RunExtends | lib/src/pcp_event_handler.c:1255-1340 | A run goes on with any call that a caller may make at that point |
| ClientRuns.ReachableSafety | lib/src/pcp_event_handler.c:395-465 | In every reachable world: waiting flows have timers and bounded delays, at most two resends, versions in 0..2, resting states, no pending restart, valid ping pointers |
| ClientRuns.BeatKeepsClaim | lib/src/pcp_event_handler.c:1255-1320 | In one pulse a flow's claim stays, or comes from the response it was sent |
| ClientRuns.SuccessNeedsResponse | lib/src/pcp_event_handler.c:251-319 | Over any run, a flow that comes to claim a mapping was handed a result-0 response it awaited, whose mapping and end of life (second received plus lifetime) it holds, or one that exposed a restart, and then it holds the mapping it had before; for the bytes see Grants.DatagramGrants |
| RoundTrip.OpenedFits | lib/src/pcp_api.c:344-402 | Every flow that pcp_new_flow adds is filed under its own key, and the key names its server |
| RoundTrip.FitsStep | lib/src/pcp_api.c:503-515 | That stays so through every call but a new nonce, while its server is registered |
| RoundTrip.LookupIsOldest | lib/src/pcp_client_db.c:161-182 | Lookup returns the oldest flow with that key and server |
| RoundTrip.CompletedKey | lib/src/pcp_event_handler.c:1289-1306 | The completed key of an answer is the flow's key exactly when it arrived at the flow's address |
| RoundTrip.AnswerFindsFlow | lib/src/pcp_event_handler.c:1289-1310 | An answer from the flow's server reaches the oldest flow with that key exactly when it arrived at the flow's address and scope |
| RoundTrip.ReplyCarries | test-server/pcp-server.c:572-607 | A peer's answer to a built request carries its key, at every version, with the result, epoch, lifetime, external port and address that the peer gives |
| RoundTrip.ReplyExists | test-server/pcp-server.c:572-607 | Every request that a version can express has such an answer |
| RoundTrip.KeyFindsItsFlow | lib/src/pcp_client_db.c:161-182 | Over any run, a flow once opened is found again at any later time by an answer that carries its key |
| RoundTrip.RequestFindsItsFlow | lib/src/pcp_msg.c:371-456 | Over any run: the message built from an opened flow's key, at any version that can express it, answered by a peer and delivered at any later time from the flow's server to the flow's address, hands its result and epoch, the lifetime, external port and address given and the second it was read to the oldest flow with that key, while the server stays registered and the nonce is the flow's own |
| Grants.DriveGrants | lib/src/pcp_event_handler.c:481-515 | A success that a flow awaits leaves it with that response's mapping at the end of the drive, restart or not |
| Grants.DatagramGrants | lib/src/pcp_event_handler.c:1255-1320 | End to end: after the whole pulse the flow's end of life and external port and address are those in the datagram's bytes, by the offsets of the standards; for NAT-PMP the address is the one its server announced last |
| Grants.AnnounceReads | lib/src/pcp_msg.c:593-610 | That address is bytes 8 to 12 of the announce |
| Grants.RequestIsGranted | lib/src/pcp_event_handler.c:1281-1310 | Over any run: a request answered with success by a peer and delivered by a later pulse leaves a flow with the request's key, if it awaited an answer, with the lifetime and mapping that the peer gave |
| RoundTrip.ReachableServers | lib/src/pcp_client_db.c:414-429 | After any registration with a local address the lookup returns the server at some scope exactly when its address is link-local or it was left without a scope, and no live server in a lower slot has the same address and scope |
| RoundTrip.RegisteredAt | lib/src/pcp_server_discovery.c:57-146 | A registration writes one slot: the server waits to be pinged without a deadline, at the version asked for, from its local address; a known one keeps its nonce and epoch baseline, a new one has a new nonce and no baseline |
| RoundTrip.HiddenServers | lib/src/pcp_client_db.c:414-429 | A registration hides a server that was found before exactly when it leaves the same address and scope in a lower slot |
| RoundTrip.SecondIsShadowed | lib/src/pcp_server_discovery.c:136-138 | A link-local address registered at scope k and again at scope 0 takes two slots, and the second server is found at no scope |
| RoundTrip.FreedSlotHides | lib/src/pcp_server_discovery.c:136-138 | In a slot that came free below it, such a registration takes over the answers of a server found before |
| RoundTrip.DeafServers | lib/src/pcp_server_discovery.c:136-138 | Over any run, a new server that is not link-local and took a scope from its local address gets no datagram delivered until its address is registered again |
| RoundTrip.NonceOverride | lib/src/pcp_api.c:503-515 | An answer to the overridden key reaches the flow itself exactly when the nonce is the server's own, or the answer is of version 2 and the bucket is the same, and no older flow is found first; and a flow with that key, no younger, exactly then or when an older one was filed under it at version 2 |
| RoundTrip.NonceOverrideLoses | lib/src/pcp_api.c:510-512 | Every flow has a nonce that loses it: over any run, no message of any server is meant for it from then on, until it is deleted or its nonce is set again |
| Engine.FindNextState | lib/src/pcp_event_handler.c:582-594 | The scan of the event table finds the meant next state, or none |
| Engine.FindHandler | lib/src/pcp_event_handler.c:596-633 | The scan of the transition table finds the meant handler, or none |
| Engine.ServerTableMeaning | lib/src/pcp_event_handler.c:1132-1163 | Some row of server_sm always matches, and the first is the one named by state and event |
| Engine.FindServerHandler | lib/src/pcp_event_handler.c:1175-1199 | The scan of server_sm finds that handler |
| Engine.FollowTables | lib/src/pcp_event_handler.c:581-635 | The for(;;) loop gives the flow, oracle position and handler count of draining the event |
| Engine.Context.HandleFlowEvent | lib/src/pcp_event_handler.c:568-645 | Replaces the flow by its drained form and nothing else |
| Engine.Context.ForeachFlow | lib/src/pcp_client_db.c:211-230 | The loop over the table is the sweep in iteration order |
| Engine.Context.GetPingMsg | lib/src/pcp_event_handler.c:751-802 | The first flow that may serve as ping becomes the server's ping, or none |
| Engine.Context.GetFlow | lib/src/pcp_client_db.c:161-182 | The first flow of the key's bucket with that key and server |
| Engine.Context.ServerPing | lib/src/pcp_event_handler.c:823-844 | Tries flows until one goes out; ends as each failure leaves fewer candidates |
| Engine.Context.CompareEpochs | lib/src/pcp_utils.h:148-164 | Adopts a first epoch as baseline and tests against it in place, as the function does of which Answers.NoticedByClocks, StepBackNoticed and FirstMessageTrusted say when it reports a restart |
| Engine.Context.RunServer | lib/src/pcp_event_handler.c:823-1202 | One step of the server machine in place, through the scanned row and its handler, for every state and event; what such steps add up to is stated in Answers, Failures, Pings and Recovery |
| Engine.Context.DriveServer | lib/src/pcp_event_handler.c:1209-1250 | The drive loop reaches the settled world and folds its deadline |
| Engine.Context.DoPulse | lib/src/pcp_event_handler.c:1255-1320 | The pulse is the delivery followed by driving every server in turn |
| Api.NewFlow | lib/src/pcp_api.c:404-501 | One flow per eligible server, in server order, chained with consecutive ids |
| Api.InitFlow | lib/src/pcp_api.c:291-326 | The new flow and its server's deadline, all other flows unchanged |
| Api.SetLifetime | lib/src/pcp_event_handler.c:1322-1340 | The flow is due and sends again unless it is parked, and its server is due |
| Api.CloseFlow | lib/src/pcp_api.c:625-645 | The doubled test closes a flow just as a single one would |
| Api.DeleteFlow | lib/src/pcp_client_db.c:100-131 | The flow leaves table and order, and a live server's ping pointer |
| Api.EvalFlowState | lib/src/pcp_api.c:135-183 | Each result exactly when the chain's states call for it, for every chain |
| Api.CountExitsBounds | lib/src/pcp_api.c:135-183 | The count of exit states is 0 exactly when none is one, full exactly when all are |
| FlowTable.FlowTable.constructor | lib/src/pcp_api.c:93-94 | An empty table |
| FlowTable.FlowTable.Add | lib/src/pcp_client_db.c:133-159 | Appends to the insertion-ordered list the chains stand for; the count is its length |
| FlowTable.FlowTable.Get | lib/src/pcp_client_db.c:161-182 | The first-added flow with that key and server, or null if there is none |
| FlowTable.FlowTable.Remove | lib/src/pcp_client_db.c:184-209 | Takes exactly that flow out of the list, found if and only if it was in it |
| FlowTable.FlowTable.DeleteAll | lib/src/pcp_client_db.c:211-230 | Deleting each flow while iterating visits every flow and leaves all buckets empty and the count 0 |
| FlowTable.FlowTable.Foreach | lib/src/pcp_client_db.c:211-230 | Visits the flows bucket by bucket, each bucket in chain order |
| FlowTable.IterationOrder | lib/src/pcp_client_db.c:211-230 | That order is by bucket and, within a bucket, by age |
| SweepOrder.SweepFollowsTable | lib/src/pcp_client_db.c:211-230 | The ids that the heap table's iteration visits are, in order, those that the machines' sweeps visit |
| SweepOrder.AddStands | lib/src/pcp_client_db.c:133-159 | Adding a flow to the heap table and to the world keeps each node standing for its flow |
| SweepOrder.DeleteStands | lib/src/pcp_client_db.c:184-209 | So does removing a node and deleting its flow |
| FlowTable.FirstInBucket | lib/src/pcp_client_db.c:161-182 | The first match in the key's bucket is the first match in insertion order |
| FlowTable.WithoutInBucket | lib/src/pcp_client_db.c:184-209 | Removing a flow and picking a bucket commute |
| ServerArray.ServerArray.New | lib/src/pcp_client_db.c:268-347 | Takes the lowest free slot, or doubles the array, and leaves every other slot as it was |
| ServerArray.ServerArray.Get | lib/src/pcp_client_db.c:349-372 | The live server at that index, none out of bounds or unused |
| ServerArray.ServerArray.GetByIp | lib/src/pcp_client_db.c:402-429 | The lowest live match, and none if there is none |
| ServerArray.WithServerKeeps | lib/src/pcp_client_db.c:320-343 | A new server keeps every live one and every index equal to its slot, and starts at version 2, with the nonce drawn for it and no epoch baseline |
| ServerArray.AdditionsKeepServers | lib/src/pcp_client_db.c:268-347 | Over any series of additions live servers keep contents and index |
| ServerArray.AdditionsAreDense | lib/src/pcp_client_db.c:290-320 | Additions to a dense array fill it without gaps, in order |
| Metadata.AddMd | lib/src/pcp_client_db.c:233-265 | Overwrites the entry with that id or appends one, the value cut to 24 bytes |
| Metadata.LastMdWins | lib/src/pcp_client_db.c:233-265 | Over any series of calls the list holds each id once, in the order first set, with its last value |
| Wire.PcpRequest | lib/src/pcp_msg.c:233-296 | For any options and metadata a request is at most 1100 bytes and a multiple of 4 |
| Wire.BuildOutcome | lib/src/pcp_msg.c:371-456 | When a build fails, and when it silently yields an empty message |
| Sending.SendMessage | lib/src/pcp_event_handler.c:343-361 | The send loop hands over the message's bytes in order, each once, and succeeds exactly when every call takes some; an empty message succeeds without a call |
| Sending.NothingIsAwaited | lib/src/pcp_event_handler.c:323-369 | A request NAT-PMP cannot express is built empty, counts as sent without a call, and its flow waits for an answer |
| Builder.MsgBuffer.PutOption | lib/src/pcp_msg.c:53-148 | Appends one encoded option at the cursor, inside the buffer |
| Builder.MsgBuffer.AddMetadataList | lib/src/pcp_msg.c:152-184 | Appends the metadata options that fit, in order, and never passes the end |
| Builder.MsgBuffer.BuildOptions | lib/src/pcp_msg.c:187-231 | Appends all set options in the builder's order |
| Builder.MsgBuffer.BuildOpcode | lib/src/pcp_msg.c:233-296 | Writes MAP or PEER data and options, exactly for versions 1 and 2 |
| Builder.MsgBuffer.BuildNatPmp | lib/src/pcp_msg.c:334-368 | Writes the NAT-PMP request, or nothing, with a code that is never negative |
| Builder.MsgBuffer.BuildMsg | lib/src/pcp_msg.c:371-456 | The bytes written are the request's layout, which Reading.RequestReadsBack and NatPmpReadsBack read back by offset, and the build fails exactly when the layout has no form |
| OptionWalk.WalkYieldsOptions | lib/src/pcp_msg.c:187-231 | A walk by length fields over encoded options ends at the end and yields exactly them, in order |
| OptionWalk.OptionsReadBack | lib/src/pcp_msg.c:187-231 | So it does over every built MAP or PEER request |
| OptionWalk.WalkOptions | test-server/pcp-server.c:244-393 | The peer's loop visits the offsets its struct sizes lead to |
| OptionWalk.PeerWalkFollows | test-server/pcp-server.c:244-393 | Over options of known size the peer visits their own offsets |
| OptionWalk.PeerVisitsOptions | test-server/pcp-server.c:486-543 | On built requests it visits the same options, and one too many exactly for PEER at version 1 |
| Parser.ParserGrammar | lib/src/pcp_msg.c:490-711 | After validation a response is accepted by version, opcode and length alone |
| Parser.RecvMsg.Validate | lib/src/pcp_msg.c:458-483 | Exactly the valid messages pass |
| Parser.RecvMsg.ParsePcpResponse | lib/src/pcp_msg.c:641-683 | The fields of a version 1 or 2 response, each read inside the received bytes |
| Parser.RecvMsg.ParseNatPmpResponse | lib/src/pcp_msg.c:593-638 | The fields of a NAT-PMP response, each read inside the received bytes |
| Parser.RecvMsg.ParseResponse | lib/src/pcp_msg.c:685-711 | Accepts and fills exactly what the grammar says |
| Echo.CreateResponse | test-server/pcp-server.c:572-607 | In the peer's 1100-byte buffer any request, of any version and opcode, is edited in place to its answer, nothing else |
| Echo.RespondInBuffer | test-server/pcp-server.c:741-748 | What the peer sends back depends on the request alone, not on the rest of its buffer |
| Echo.AnswerShape | test-server/pcp-server.c:572-607 | The answer is a response header, the request's opcode data with the peer's address, and its options |
| Echo.EchoParses | lib/src/pcp_msg.c:641-711 | Parsing the peer's echo of any MAP or PEER request gives back its key data, lifetime and mapping, with the peer's result and epoch |
| Echo.RefusalParses | test-server/pcp-server.c:585-588 | A refused version comes back under the peer's own version with result 1, and the client reads it exactly when the request was as long as that version's response must be |
| Echo.DscpAnswered | test-server/pcp-server.c:600-604 | Asked for a DSCP the peer answers its own in byte 36, with the top bit set by its application bit, and changes nothing else behind the header |
| Echo.NatPmpEchoParses | lib/src/pcp_msg.c:593-638 | The same for NAT-PMP mappings |
| Reading.RequestReadsBack | lib/src/pcp_msg.c:233-456 | Read by the offsets of sections 7.1, 11.1 and 12.1 of RFC 6887, a built MAP, PEER or announce gives back version, opcode, lifetime and client address, and a mapping its nonce, protocol, ports and addresses |
| Reading.NatPmpReadsBack | lib/src/pcp_msg.c:334-368 | The same for NAT-PMP by section 3 of RFC 6886 |
| Reading.ResponseReads | lib/src/pcp_msg.c:490-591 | The fields taken from an accepted version 1 or 2 response are those at the standard's offsets |
| Reading.NatPmpResponseReads | lib/src/pcp_msg.c:593-638 | The same for NAT-PMP responses |
| Reading.OptionsAreSent | lib/src/pcp_msg.c:187-231 | A reader that follows the options' lengths finds exactly the options set on the flow, in order, and behind them the metadata; each lies at its offset with code, a zero byte, length and data |
| Reading.MdOptsRead | lib/src/pcp_msg.c:152-184 | As long as they fit, every set metadata value is written, in order, with its identifier and zero padding |

## Left out

- Sockets, source-address discovery and routing tables: sending is an outcome of the oracle, receiving an arbitrary datagram, the local address of a server a parameter of registration.
- A message buffer kept from a failed send: the outcome of a send in the machines is arbitrary, as any message may meet it.
- `pcp_wait` and `select`: a loop of pulses around input and output.
- The flow change callback: user code; it is taken to change nothing.
- `next_child` chains: a call on a chain is a series of calls on its flows; only `Api.NewFlow` and `Api.EvalFlowState` deal with whole chains.
- `pcp_terminate`: its closing pass is a series of closes, its deleting pass is `FlowTable.FlowTable.DeleteAll`; freeing the servers is not modelled.
- `pcp_flow_get_info`, the option setters, logging, the command line clients and the scapy scripts: they would add only easy members.
- SADSCP on the client's side, Windows-only code, and branches for exhausted memory.
- Flow and server pointers in the machines: they are ids and indices, so aliasing is modelled only in `FlowTable` and `Timeval`, and the move of the array by `realloc` not at all.
- `retry_count` is unbounded: it would take 2^32 sends without a reset to wrap.
- The hash reads the key as a little-endian machine lays it out.
- `printPCPreq` beyond its option loop, and the truncation of what the peer receives at 1099 bytes.
- ClientRuns.RunKeeps: a run ends before the one delete that leaves a dangling pointer; what the code does with that pointer afterwards is not modelled.
- Api.NewFlow: takes the key that `pcp_new_flow` has made of its address arguments; the family checks and the search for a source address are not modelled.
- OptionWalk.WalkOptions: models where the peer looks for options; its occurrence flags and result codes are not modelled.
