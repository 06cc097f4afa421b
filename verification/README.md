# libpcp, modelled and verified

libpcp is a client for the Port Control Protocol (RFC 6887) that falls back to NAT-PMP (RFC 6886).
An application asks it for flows: mappings at, or peerings through, every server it knows. The
library sends, retransmits, renews and, after a server lost its state, restores them. Its core is
a pair of timed state machines, one per flow and one per server, over one shared database of
flows, and a wire format that ties each reply to the flow it answers. This project models that
core and proves what it promises, for all inputs, all send outcomes and all runs. Check it with
`dafny verify dfyconfig.toml`.

## How the model is built

The outside world is a parameter: each look at it gives a clock reading, the outcome of a send and
a random number. The context is given twice. As a value (`World`) it is what the handlers, as
functions, map to the next context, and what the theorems speak about. As an object
(`Client.Context`) it has the loops and updates of the original, and every method is proved to do
what its function says. Where the original works on memory, so does the model: linked chains in
`FlowDb`, a reallocated array in `ServerArray`, buffers written in place in `Message` and
`MockServer`, aliased time values in `Timeval`. `FlowDb` keeps, beside the pointers, the plain
list of flows in order of insertion; that its walk is the `order` of the context is
`WalkOrder.WalkIsOrder`.

A few fields of the records are history only: no operation reads them, and the theorems over whole
runs are stated with them (messages sent, messages matched, negotiation rounds, and `spared`: a
message of this flow announced a restart although its result was not success).

| file | what it holds |
|---|---|
| `Types` | records, enumerations, constants |
| `Timeval`, `Epoch` | time and epoch arithmetic |
| `FlowMachine`, `Retransmission`, `Renewal` | the flow state machine and its timers |
| `FlowHash`, `FlowDb`, `WalkOrder`, `ServerArray` | the databases |
| `ServerMachine`, `Invariant`, `Handlers` | the server state machine and what each handler keeps |
| `Recovery`, `Timers`, `Pump` | restart, ping, timer minimum, termination |
| `Pings`, `Consequences` | unanswered pings, negotiation, success without a grant |
| `Silence`, `Incoming`, `Outgoing` | what only messages change, what they change, what goes out with the next pulse |
| `Message`, `Reader`, `Builder` | requests, written and read |
| `MockServer`, `Response`, `EndToEnd` | the server's side, replies, the way back |
| `Api`, `Runs`, `Client` | flow creation, whole runs, the context as an object |

## Where the code differs from what one would expect

The model follows the code; each point has a lemma.

- A failed send in lifetime renewal leads to a plain send, not to failure, and the result "malformed
  option" has no transition (`FlowMachine.EventTableFirstMatch`).
- A renewal timer that fires after the end of the mapping neither falls back nor fails: the flow
  renews on, still counted as succeeded (`Renewal.LateFireStays`; the exact condition is
  `Renewal.FallsBackExactly`).
- A stale timer sets the running minimum back to "none", so that a server may be left without any
  timer (`Recovery.StaleTimerDisarms`; the exact condition is `Timers.StaleTimersExactly`).
- An error reply that at the same time announces a restart makes its flow a success. At a server that
  is not working every reply but two announces one. A waiting flow escapes exactly when the
  table has no row for the result, such as "malformed option": it is sent again, or fails
  (`Consequences.ErrorAtRestartReportedAsSuccess`, `Consequences.ErrorRevivesAsSuccess`). A flow
  to which no such reply was matched is a success only if a success was (`Runs.EveryRunIsSafe`).
- A NAT-PMP request that cannot be encoded counts as sent, without a byte (`Message.NatPmpRequest`).
- A close while a reply to a ping is awaited counts as an unanswered ping
  (`Outgoing.ClosedFlowElsewhere`).
- Negotiation may raise the version when the server names a higher one
  (`Consequences.RoundLowersVersion`).
- The mock server takes a PEER request of version 1 for twenty bytes longer than it is
  (`MockServer.WalkIsExactUnlessV1Peer`).
- The mock server reports what it found at the last option only (`MockServer.WalkReportsLast`), and its
  refusal of a version can be too short for the client to read (`EndToEnd.RefusalIsRead`).
- The hash keeps five bits, so only the first half of the 64 chains is used (`FlowHash.Bucket`).

## Model

| member | source | states |
|---|---|---|
| Runs.EveryRunIsSafe | libpcp/src/pcp_event_handler.c:1251-1316 | after every run of API calls and pulses from an empty context, for every message, send outcome and random value: each flow was retransmitted at most twice since its last reset and waits between 2625 and 15187 ms, is a success only if a message was matched to it (a success message, unless a message of this very flow announced a restart with another result), and each server waits, speaks version 0 to 2, refers to no flow but a registered one of its own and remembers no restart |
| Runs.EveryStepIsSafe | libpcp/src/pcp_event_handler.c:1163-1198 | the same invariant after every single handler, for a clock that may do anything and any number of rounds of the timeout loop |
| Runs.ApplyKeeps | libpcp/src/pcp_event_handler.c:1251-1336 | each call (pulse, add server, new flow, set lifetime, close, delete) keeps the invariant and leaves every server at rest |
| Runs.RunKeeps | libpcp/src/pcp_event_handler.c:1205-1246 | any sequence of calls keeps the invariant and leaves every server at rest |
| Runs.DeleteKeeps | libpcp/src/pcp_client_db.c:99-130 | deleting a flow keeps the invariant, and no server refers to that flow any more, as ping flow or as restart flow |
| Runs.InvIsSafe | libpcp/src/pcp_event_handler.c:271-298 | the invariant implies the safety of every flow and server |
| Runs.PulseWait | libpcp/src/pcp_event_handler.c:1309-1315 | a pulse returns exactly the minimum of the caller's non-zero wait and the remaining time of every armed server, and all armed servers' timers lie ahead |
| Handlers.RunServerKeeps | libpcp/src/pcp_event_handler.c:1163-1198 | every server handler keeps the invariant, for every clock, send outcome and message, and changes no other server |
| Handlers.NegotiateKeeps | libpcp/src/pcp_event_handler.c:885-943 | version negotiation keeps the invariant: the version stays 0, 1 or 2, the decrement below 0 is never adopted, the NAT-PMP announcement becomes a registered ping flow |
| Handlers.ReceiveMsgKeeps | libpcp/src/pcp_event_handler.c:964-1007 | a received message keeps the invariant |
| Incoming.ReceivedLeadsTo | libpcp/src/pcp_event_handler.c:964-1007 | result 1 leads to negotiation with the version named, result 12 to set_not_working, both without touching a flow; of the others a changed epoch leads to the restart and the rest to the timers |
| Incoming.EpochIsKept | libpcp/src/pcp_utils.h:148-164 | the first epoch of a server and that of every restart are kept with their second of arrival; no other message moves them |
| Incoming.PingReplyLeadsTo | libpcp/src/pcp_event_handler.c:869-883 | the same for the reply to a ping, with the messages of all flows in place of the timers |
| Incoming.MismatchGivesUp | libpcp/src/pcp_event_handler.c:983-990 | an address mismatch gives the server up within the call: not working for the retry delay, its flows failed, granted ones sent once more or failed |
| Incoming.SuccessIsStored | libpcp/src/pcp_event_handler.c:477-511 | a success for a waiting or granted flow: it is granted, has the result, the assigned address and port of MAP and PEER, the end of its lifetime cut at LONG_MAX, and a timer at half of what is left, none for lifetime 0 |
| Incoming.ShortErrorIsStored | libpcp/src/pcp_event_handler.c:463-475 | a short-lived error: the flow waits exactly as long as the message says, and is sent again then |
| Incoming.LongErrorIsStored | libpcp/src/pcp_event_handler.c:271-318 | a long-lived error: the flow fails with the result and without a timer, all else as it was |
| Incoming.RefusedVersionIsStored | libpcp/src/pcp_event_handler.c:271-318 | a refused version: the flow waits for the server, with the result and without a timer |
| Incoming.OtherResultsAreIgnored | libpcp/src/pcp_event_handler.c:577-630 | results without a row, and results for flows that expect none, change nothing |
| Incoming.GrantIsStored | libpcp/src/pcp_event_handler.c:1205-1246 | at the end of the call the flow that a success was for has stored what was assigned, whatever restart or timers followed |
| Incoming.PulseStoresGrant | libpcp/src/pcp_event_handler.c:1251-1316 | and so at the end of the pulse, whatever all other servers and flows did in it |
| Incoming.ReplyIsStored | libpcp/src/pcp_event_handler.c:1251-1316 | from the request to the flow: after the pulse that receives the server's success the flow has the address that the server wrote and the port asked for, its lifetime from the second of arrival on, and the result |
| Incoming.AnnouncementIsKept | libpcp/src/pcp_event_handler.c:646-703 | a NAT-PMP announcement gives the server its external address and is matched to the ping flow exactly where that is an announcement at version 0 |
| Incoming.NatPmpGrantIsStored | libpcp/src/pcp_event_handler.c:646-703 | a mapping granted by NAT-PMP has the port of the reply and the announced address, mapped to IPv6 |
| Silence.ChainIsSilent | libpcp/src/pcp_event_handler.c:577-630 | without a message no chain of transitions changes what was received for a flow or asked for it |
| Silence.TimeoutIsSilent | libpcp/src/pcp_event_handler.c:1205-1227 | nor does any handler run by a due timer, for any flow |
| Silence.PulseWithoutMessageIsSilent | libpcp/src/pcp_event_handler.c:1251-1316 | nor does a pulse without a message |
| Handlers.RegisterPlace | libpcp/src/pcp_client_db.c:143-152 | in every reachable context a flow is registered behind all flows of its own and earlier chains and before all of later ones |
| Invariant.LookupFindsEarliest | libpcp/src/pcp_client_db.c:160-181 | the lookup gives the earliest created of the registered flows with the key and server |
| WalkOrder.WalkIsOrder | libpcp/src/pcp_client_db.c:210-229 | for the same flows the walk over the chains of the database is the order of the context |
| WalkOrder.AddedInStep | libpcp/src/pcp_client_db.c:132-158 | adding a flow to both keeps them so |
| WalkOrder.RemovedInStep | libpcp/src/pcp_client_db.c:183-208 | removing a flow from both keeps them so |
| Invariant.FlowEventKeeps | libpcp/src/pcp_event_handler.c:564-641 | an event for one flow keeps the flow invariant and touches no other flow |
| Pump.TerminatedServerIsStill | libpcp/src/pcp_event_handler.c:1090-1105 | a terminated server is allocated only, without a timer, and no further event moves it or any flow |
| Pump.StepProgress | libpcp/src/pcp_event_handler.c:1205-1227 | with the clock held still, every handler run by the timeout loop lowers the server's rank or ends the loop |
| Pump.PumpLoopSettles | libpcp/src/pcp_event_handler.c:1217-1227 | the timeout loop of a server ends, outside every transient state, its timer off or ahead |
| Pump.HandleServerSettles | libpcp/src/pcp_event_handler.c:1205-1246 | from every context with the invariant, for every event, message and send outcome, one call returns with the server waiting, its timer off or ahead, no restart remembered and the other servers untouched |
| Recovery.RestartRecovery | libpcp/src/pcp_event_handler.c:954-962 | after a restart every registered flow of the server but the announcing one, from any state, has sent exactly one message and waits with its timer ahead, or has failed; all other flows are unchanged; the announcing flow is forgotten |
| Recovery.GivingUp | libpcp/src/pcp_event_handler.c:1027-1042 | when a server is given up every registered flow of it has failed with its timer off, except that a granted one is sent once more or fails; all other flows are unchanged |
| Recovery.Serving | libpcp/src/pcp_event_handler.c:945-952 | when a server answers every registered flow that waited for it or for a reply has sent one message or failed; of the rest of its flows only those with a due timer acted; all other flows are unchanged |
| Recovery.PingSelection | libpcp/src/pcp_event_handler.c:819-840 | the ping loop ends; without a ping no flow of the server is left in idle, wait_for_server_init or send and no timer is armed; otherwise the ping flow is a registered flow of this server, not failed, with no retransmission counted, and lends the server its timer |
| Pings.PingIsRetried | libpcp/src/pcp_event_handler.c:842-867 | an unanswered ping below the limit: exactly one message goes out for the ping flow, whose new timer is the server's, or it has failed and the server is given up; no other flow changes |
| Pings.LastPingGivesUp | libpcp/src/pcp_event_handler.c:842-867 | at the limit nothing is sent and the server is given up at once |
| Pings.LostPingSearches | libpcp/src/pcp_event_handler.c:842-867 | without a ping flow the server is to look for one at once |
| Pings.OnePingPerCall | libpcp/src/pcp_event_handler.c:1205-1227 | one call counts one unanswered ping and no more, unless the ping flow has no transition for a timeout or is granted beyond its lifetime |
| Pings.NegotiationEnds | libpcp/src/pcp_event_handler.c:885-943 | a negotiation above version 0 sends exactly one message, to the ping flow or the first flow that can be pinged, at version 0 to the NAT-PMP announcement, and waits as long as that flow; or gives up; or has no flow to ping |
| ServerMachine.FewerPingable | libpcp/src/pcp_event_handler.c:747-763 | each failed ping strictly lowers the number of flows that can be pinged |
| Recovery.TimerIsNearestAfterStale | libpcp/src/pcp_event_handler.c:1009-1025 | next_timeout is exactly the nearest timer among the flows walked after the last stale one, for every context |
| Recovery.TimerIsEarliest | libpcp/src/pcp_event_handler.c:705-740 | where the walk leaves no stale timer next_timeout is the earliest armed timer of all flows, 0 without one |
| Recovery.TimerIsEarliestOnlyIf | libpcp/src/pcp_event_handler.c:724-737 | ... and only there |
| Recovery.StaleTimerDisarms | libpcp/src/pcp_event_handler.c:724-737 | the minimum is lost: a flow waiting for its own server at the end of the walk disarms the server, whatever other timers are set |
| Timers.StaleTimersExactly | libpcp/src/pcp_event_handler.c:705-740 | the walk leaves no stale timer if, and with a working socket only if, before the call no registered flow had a due timer in a state without a timeout transition or beyond the end of its lifetime |
| Timers.TimerIsEarliestBefore | libpcp/src/pcp_event_handler.c:1009-1025 | under that condition, read off before the call, next_timeout is the earliest armed timer |
| FlowMachine.EventTableFirstMatch | libpcp/src/pcp_event_handler.c:271-318 | the first row that matches a state and event decides the next state, in particular that a failure in lifetime renewal leads to send, and a malformed option nowhere |
| FlowMachine.TransTableFirstMatch | libpcp/src/pcp_event_handler.c:250-261 | the first row that matches a transition decides its handler |
| FlowMachine.ChainEndsAtRest | libpcp/src/pcp_event_handler.c:577-630 | every event runs at most four handlers; a flow that took a transition comes to rest outside send and send_renew; an event without a row changes nothing |
| FlowMachine.FourHandlersHappen | libpcp/src/pcp_event_handler.c:577-630 | the bound of four handlers is reached |
| FlowMachine.ChainFrame | libpcp/src/pcp_event_handler.c:564-641 | no chain of transitions changes a flow's key, server, child link, requested lifetime or what was received for it, and no message is unsent |
| ServerMachine.ServerTableFirstMatch | libpcp/src/pcp_event_handler.c:1128-1159 | some row of the server table always matches, and the first decides the handler |
| Retransmission.RetransmissionTimeExact | libpcp/src/pcp_event_handler.c:65-69 | up to the longest wait the 32-bit product does not wrap: the new time is 7/8 to 9/8 of the doubled old one (at least the initial one) and at least 2625 ms |
| Retransmission.ProductWrapsBeyond | libpcp/src/pcp_event_handler.c:65-69 | far above that wait the product wraps and the time can fall below the shortest one |
| Retransmission.WaitGrows | libpcp/src/pcp_event_handler.c:429-457 | from one retransmission to the next the wait stays within 2625 ms and the bound of its count |
| Retransmission.ChainKeepsRetx | libpcp/src/pcp_event_handler.c:419-461 | every chain keeps the link between state, retry_count and resend_timeout and the bound of two retransmissions since the last reset, and a flow newly in wait_resp waits at least 2625 ms |
| Retransmission.RenewHasCause | libpcp/src/pcp_event_handler.c:271-298 | a flow is in lifetime renewal only if it was there, received success while waiting, or is the flow that announced a restart |
| Retransmission.SendingChain | libpcp/src/pcp_event_handler.c:391-461 | with the clock held still an event that leads to send ends with exactly one message sent and the timer ahead, or none and the flow failed |
| Retransmission.FirstWaitIsInitial | libpcp/src/pcp_event_handler.c:391-417 | the first message of a flow waits the initial time, and counts no retransmission |
| Retransmission.NextWaitDoubles | libpcp/src/pcp_event_handler.c:419-461 | each retransmission counts and waits 7/8 to 9/8 of twice the time before; the third is not sent |
| Retransmission.OverdueFails | libpcp/src/pcp_event_handler.c:550-560 | a flow enters wait_resp unless its timer has passed, and exactly then fails |
| Retransmission.RestartFlowSkipped | libpcp/src/pcp_event_handler.c:400-402 | the flow that announced a restart is not sent again but returns to lifetime renewal |
| Renewal.MiddleIsInside | libpcp/src/pcp_event_handler.c:499-507 | with two seconds or more left a renewal is planned strictly between now and expiry, and when it is due half is left, rounded up |
| Renewal.FireRenewsOrFallsBack | libpcp/src/pcp_event_handler.c:513-536 | a timer that fires no later than the end renews and plans the next renewal inside the rest, or falls back to a plain send |
| Renewal.LateFireStays | libpcp/src/pcp_event_handler.c:526-535 | a timer that fires after the end does neither: the renewal is sent, the next is planned for the past, and the flow stays among the succeeded ones |
| Renewal.FallsBackExactly | libpcp/src/pcp_event_handler.c:526-535 | the flow leaves renewal if and only if the send fails or zero or one second is left |
| Renewal.RenewalsAreLogarithmic | libpcp/src/pcp_event_handler.c:513-536 | n renewals without a reply need more than 2^(n-1) seconds of lifetime left at the first |
| Renewal.RenewalsPerGrant | libpcp/src/pcp_event_handler.c:477-536 | ... so the granted lifetime bounds their number by a logarithm |
| Renewal.TimersStayInRange | libpcp/src/pcp_event_handler.c:483-507 | the end of a lifetime and the timer set at the reply never exceed LONG_MAX |
| Renewal.RenewedTimersStayInRange | libpcp/src/pcp_event_handler.c:513-536 | nor does the timer of any renewal, at whatever time it fires |
| Consequences.RoundLowersVersion | libpcp/src/pcp_event_handler.c:885-943 | an unsupported-version answer naming no higher version strictly lowers the version, or ends the server at version 0; one naming a higher version raises it |
| Consequences.ThirdRoundEnds | libpcp/src/pcp_event_handler.c:974-982 | while no answer names a higher version the third round sets the server not working |
| Consequences.EpochSettled | libpcp/src/pcp_event_handler.c:995-1006 | right after a message was handled, by a working server or one that was not, the same epoch and time are not reported as a restart |
| Consequences.RestartSparesExactly | libpcp/src/pcp_event_handler.c:400-402 | the flow that announced a restart is a success after it if and only if it was not waiting for a reply, and no success is added to it |
| Consequences.ErrorAtRestartReportedAsSuccess | libpcp/src/pcp_event_handler.c:964-1007 | a reply that announces a restart by its epoch, any number of flows: the flow it is matched to is a success after the restart if and only if it is not left waiting (it waited and the table has no row for the result, or its forced renewal fell back to a plain message), while a success was matched to it only if it had one or this is one |
| Consequences.ErrorRevivesAsSuccess | libpcp/src/pcp_event_handler.c:1065-1072 | the same for a server that is not working, where any reply but two announces a restart, whatever its epoch |
| Consequences.ResultTransition | libpcp/src/pcp_event_handler.c:271-318 | exactly which flows a result leaves waiting for a reply |
| Outgoing.DueFlowIsSent | libpcp/src/pcp_event_handler.c:705-740 | a due flow at a server that waits for messages: the pulse sends exactly one message for it, with its key, lifetime and external address, or it fails, whatever the other servers and flows do |
| Outgoing.ClosedFlowIsReleased | libpcp/src/pcp_api.c:604-636 | closing a flow that is under way: the pulse that follows sends one message with lifetime 0, or the flow fails |
| Outgoing.ClosedFlowFails | libpcp/src/pcp_api.c:604-624 | closing a flow that the server cannot know of fails it and changes nothing else |
| Outgoing.ChangedLifetimeIsSent | libpcp/src/pcp_api.c:496-504 | a changed lifetime, whatever it is, is asked for with the next pulse, in one message, or the flow fails |
| Outgoing.ChangedLifetimeIsKept | libpcp/src/pcp_event_handler.c:1318-1336 | a flow that waits keeps its state and has the new lifetime |
| Outgoing.CreatedFlowsGoOut | libpcp/src/pcp_api.c:397-493 | after creation every child at a server that waits for messages is sent by the next pulse, as asked for, in one message, or fails; at a server without a ping it can be pinged; elsewhere it waits for its server |
| Outgoing.WaitingFlowIsServed | libpcp/src/pcp_event_handler.c:945-952 | a flow that waits is sent in one message, as asked for, or fails, when its server answers |
| Outgoing.ClosedFlowRepings | libpcp/src/pcp_api.c:604-636 | at a server that is not working the close ends the delay: the server is pinged again from version 2 on |
| Outgoing.ClosedFlowElsewhere | libpcp/src/pcp_api.c:604-636 | while a ping reply is awaited a close counts as an unanswered ping, the fifth giving the server up; in the ping state it starts the selection again, with the closed flow among the candidates |
| EpochModel.DivergedIsDisagreement | libpcp/src/pcp_utils.h:148-164 | with both deltas below 2^32-2 a restart is reported exactly when one delta less its sixteenth exceeds the other plus 2 |
| EpochModel.DivergedExactly | libpcp/src/pcp_utils.h:148-164 | over all 32-bit deltas a restart is reported exactly when the deltas disagree or one of them is among the last two values |
| EpochModel.BackwardStepReported | libpcp/src/pcp_utils.h:148-164 | every backward epoch step of 1 to 2^31 is reported while fewer than 2013265918 s passed on the client |
| EpochModel.BackwardStepBoundIsTight | libpcp/src/pcp_utils.h:148-164 | at that bound the largest step is missed |
| EpochModel.NotReportedTwice | libpcp/src/pcp_utils.h:148-164 | right after any message the same epoch and time are no restart, whether one was reported or not and for the sentinel value, too |
| EpochModel.SteadyServerNotReported | libpcp/src/pcp_utils.h:148-164 | a server that keeps counting, with up to 2 s of skew, is never reported, across wrap-around of its counter |
| TimevalModel.Timeval.Align | libpcp/src/pcp_utils.h:166-173 | the total is kept and the microseconds brought in range, for all signed inputs |
| TimevalModel.Compare | libpcp/src/pcp_utils.h:175-189 | the sign of the difference of the totals, under aliasing, both operands keeping their totals |
| TimevalModel.Subtract | libpcp/src/pcp_utils.h:191-216 | for every aliasing of its arguments: 1 with a zero result iff x is at most y, else 0 with the normalised difference |
| TimevalModel.Remaining | libpcp/src/pcp_event_handler.c:726-731 | result and subtrahend one object, as in every timer loop: what is left is the time to wait, or zero iff the timer has passed |
| FlowHash.KeyBytesInjective | libpcp/src/pcp_client_db.h:65-79 | comparing the bytes of two keys decides equality of all their fields |
| FlowHash.ComputeFlowKey | libpcp/src/pcp_client_db.c:47-61 | the loop computes the bucket of the key bytes, below 32 |
| FlowHash.HashIsXorOfWords | libpcp/src/pcp_client_db.c:50-57 | on whole words the rotating byte loop is the exclusive or of the words |
| FlowDb.Db.Get | libpcp/src/pcp_client_db.c:160-181 | returns exactly what a scan of all flows in order of insertion finds first for key and server |
| FlowDb.Db.Add | libpcp/src/pcp_client_db.c:132-158 | appends to the list; chains stay acyclic, disjoint and by hash, and flow_cnt is the length of the list |
| FlowDb.Db.Link | libpcp/src/pcp_client_db.c:143-152 | the pointer walk appends to one chain and touches no other |
| FlowDb.Db.Remove | libpcp/src/pcp_client_db.c:183-208 | takes exactly that flow out of the list and its chain, wherever it stands; not found iff it is in none |
| FlowDb.Db.Bypass | libpcp/src/pcp_client_db.c:197-205 | linking around a flow leaves its chain in order and the other chains alone |
| FlowDb.Db.ForEach | libpcp/src/pcp_client_db.c:210-229 | visits the chains one after the other, each in order |
| FlowDb.Db.DeleteAll | libpcp/src/pcp_api.c:649-663 | the walk with deletion of the current flow meets and removes every flow |
| FlowDb.ScanChain | libpcp/src/pcp_client_db.c:160-181 | index refines list: the scan of the key's chain is the scan of the whole list |
| FlowDb.ChainRemoved | libpcp/src/pcp_client_db.c:183-208 | removal from the list is removal from one chain and no change of the others |
| FlowDb.AddedWalk | libpcp/src/pcp_client_db.c:132-158 | an added flow is walked after its own and earlier chains and before later ones, the others keep their order |
| FlowDb.RemovedWalk | libpcp/src/pcp_client_db.c:183-208 | a removed flow leaves the walk, the others keep their order |
| FlowDb.WalkFindsEarliest | libpcp/src/pcp_client_db.c:160-181 | the first flow met with a key and server in the order of the walk is the earliest added one |
| FlowDb.WalkMeetsAllOnce | libpcp/src/pcp_client_db.c:210-229 | the walk meets every registered flow exactly once |
| ServerArray.Servers.NewServer | libpcp/src/pcp_client_db.c:267-337 | the first unused slot is taken, growing the array if there is none, with address, scope, nonce, version 2 and no epoch, and no other index changes its meaning |
| ServerArray.Servers.Lookup | libpcp/src/pcp_client_db.c:339-362 | an index means a server iff it is in range and its slot is in use |
| ServerArray.Servers.FindByIp | libpcp/src/pcp_client_db.c:392-419 | the first used slot with the address, and for a link-local address the scope |
| ServerArray.Servers.Grow | libpcp/src/pcp_client_db.c:300-318 | the old slots keep their places, the new ones are unused |
| Message.RequestLength | libpcp/src/pcp_msg.c:364-440 | every request is a whole number of words and at most 1100 bytes, for any options and metadata |
| Message.MetadataWholeOrNot | libpcp/src/pcp_msg.c:151-183 | each non-empty metadata value is written whole, in order, or left out because the message was too full for it at its turn |
| Message.FixedOptsSize | libpcp/src/pcp_msg.c:186-224 | the options of fixed size take at most 644 bytes together |
| Message.NetworkOrder | libpcp/src/pcp_msg.c:364-440 | fields of 16 and 32 bits are written most significant byte first |
| Message.ReadBack32 | libpcp/src/pcp_msg.c:364-440 | a 32-bit field written in network order reads back as itself |
| Message.Buffer.AddMetadata | libpcp/src/pcp_msg.c:151-170 | appends the encoded option if it fits and nothing otherwise |
| Message.Buffer.AddAllMetadata | libpcp/src/pcp_msg.c:172-183 | the loop appends exactly the encoded values that fit, in order |
| Message.Buffer.AddOptions | libpcp/src/pcp_msg.c:186-224 | appends exactly the encoded options of the flow in their order |
| Message.Buffer.PutBody | libpcp/src/pcp_msg.c:226-289 | appends the MAP or PEER body of version 1 or 2, field by field |
| Builder.BuildPcpMsg | libpcp/src/pcp_msg.c:364-440 | a fresh buffer holds exactly the message, in which a server reads what was asked for, every field at its offset; a whole number of words for PCP; null iff there is no such message |
| Reader.RequestIsRead | libpcp/src/pcp_msg.c:364-440 | reading undoes building: version, opcode, lifetime, client address, nonce, protocol, ports, external endpoint, remote peer and every option of any request read back at the offsets of RFC 6887 |
| Reader.OptsAreRead | libpcp/src/pcp_msg.c:52-183 | the options read back one by one in their order, metadata with its padding |
| Reader.OptionsAsSwitchedOn | libpcp/src/pcp_msg.c:186-224 | each option is in a request exactly where the application switched it on; metadata only of the flow and not empty |
| Reader.NatPmpIsRead | libpcp/src/pcp_msg.c:327-362 | a NAT-PMP request reads back as the announcement or the mapping asked for, protocol, ports and lifetime; for anything else there is nothing to read |
| Message.BuiltLength | libpcp/src/pcp_msg.c:364-440 | every message is within the limit, and every PCP message a whole number of words from the header up |
| Message.Buffer.PutNatPmp | libpcp/src/pcp_msg.c:327-362 | writes the announcement or the TCP or UDP mapping request, and no byte for anything else |
| MockServer.RunWalk | pcp_server/pcp_server.c:512-549 | the loop ends with nothing remaining, in the state of the functional walk |
| MockServer.WalkVisitsOptions | pcp_server/pcp_server.c:250-399 | over encoded options the walk visits exactly their headers in order and uses up exactly their size |
| MockServer.ServerWalksRequest | pcp_server/pcp_server.c:473-549 | for v2 MAP, v2 PEER and v1 MAP the walk visits exactly the written options and ends with remaining size 0 at the end of the message |
| MockServer.ServerOverrunsV1Peer | pcp_server/pcp_server.c:492-509 | a v1 PEER request is walked past its end: the next header visited is the zero byte behind it |
| MockServer.WalkIsExactUnlessV1Peer | pcp_server/pcp_server.c:473-549 | the walk visits exactly the written options if and only if the request is not v1 PEER, whatever lies behind it |
| MockServer.WalkReportsLast | pcp_server/pcp_server.c:250-399 | the walk reports its last option only: a repeated third-party or prefer-failure option, or one for MAP in another request, is an error if it is the last, and forgotten otherwise |
| MockServer.CreateResponse | pcp_server/pcp_server.c:578-613 | in place: the header becomes a response header, the external address of MAP is written at its offset, all other bytes stay |
| EndToEnd.ParsedKey | libpcp/src/pcp_msg.c:669-695 | a message that carries the identity of a flow parses, and with the fields filled in by the pulse gives the flow's key |
| EndToEnd.ReplyFindsKey | libpcp/src/pcp_event_handler.c:1285-1302 | request, response, validation, parsing and key filling compose to the identity on the key; result, version, lifetime, epoch and the assigned endpoint arrive, too |
| EndToEnd.RefusalIsRead | pcp_server/pcp_server.c:578-613 | a server's refusal of the version is read, with the version it names, exactly where it is long enough for a body of that version, and never from a server of version 0 |
| EndToEnd.EchoIsDropped | libpcp/src/pcp_msg.c:442-467 | a request that comes back as it was sent is dropped |
| Response.ReceivedExactly | libpcp/src/pcp_msg.c:442-558 | exactly which packets count: version, response bit, opcode, length and a server with the sender's address and scope |
| Response.NatPmpRefusalParsed | libpcp/src/pcp_msg.c:577-625 | a NAT-PMP header alone parses to its result and epoch, at version 0 |
| Response.AnnouncementParsed | libpcp/src/pcp_msg.c:577-590 | a NAT-PMP announcement parses to its address and epoch |
| EndToEnd.ReplyFindsFlow | libpcp/src/pcp_event_handler.c:1251-1302 | the reply is handed to the oldest registered flow of the server with the key, so to the flow that sent the request if and only if it is the oldest |
| EndToEnd.NatPmpReplyFindsKey | libpcp/src/pcp_msg.c:577-625 | a NAT-PMP reply to the mapping request of a flow parses and gives back the flow's key, result, lifetime, epoch and port |
| Api.CreateAllOrNothing | libpcp/src/pcp_api.c:477-493 | creation makes exactly one registered child per working server of matching family and scope, linked in server order, each field by field as asked for, to be sent at once exactly at a server that waits for messages, with that server due; and keeps the flows registered before in their order, or leaves the registered flows just as they were |
| Api.EligibleExactly | libpcp/src/pcp_api.c:332-367 | a server gets a child iff it is in use, not given up, and the application named no address, or one of the family of the server's source address and its scope |
| Api.EligibleFromExactly | libpcp/src/pcp_client_db.c:364-384 | those servers are visited once each, in the order of their slots |
| Runs.AddedServerIsFound | libpcp/src/pcp_api.c:71-89 | a server added is found under its address, to be pinged with the version and source address given; a known one keeps nonce, epoch and ping flow; no other slot changes; an unknown version changes nothing |
| Api.CreateFailsOnlyOnAllocation | libpcp/src/pcp_api.c:337-395 | creation fails only if an allocation for an eligible server does |
| Api.ChildrenHaveKeys | libpcp/src/pcp_api.c:350-367 | every child has a key of the form that replies are matched with |
| Api.DeleteChainOrder | libpcp/src/pcp_api.c:638-647 | deleting a chain takes exactly its flows out of the walk |
| Client.Context.HandleFlowEvent | libpcp/src/pcp_event_handler.c:564-641 | the loop over table lookups and handlers: at most four run, a flow that took a transition rests, identity stays, and a success stores result, assigned endpoint and end of lifetime |
| Client.Context.CheckTimeout | libpcp/src/pcp_event_handler.c:705-740 | no other flow is touched, the flow stays sound, and with the clock held still the running minimum is the smaller of itself and the time left on the timer the flow now has, none if that is stale |
| Client.Context.SendEventToAll | libpcp/src/pcp_event_handler.c:805-814 | the walk that sends an event to every flow of one server |
| Client.Context.HandleWaitIoTimeout | libpcp/src/pcp_event_handler.c:1009-1025 | the walk and timer update that the timer-minimum lemmas are about |
| Client.Context.GetPingMsg | libpcp/src/pcp_event_handler.c:782-798 | the first flow of the walk that can be pinged becomes the ping flow |
| Client.Context.HandleServerPing | libpcp/src/pcp_event_handler.c:819-840 | the loop, which terminates, computes the ping selection |
| Client.Context.HandleWaitPingRespTimeout | libpcp/src/pcp_event_handler.c:842-867 | one more ping is counted, the fifth gives the server up, before that the ping flow is sent once more and the server waits as long as it, or both have failed; the invariant is kept and the server's rank falls or it rests |
| Client.Context.ProcessMsg | libpcp/src/pcp_event_handler.c:646-703 | the message reaches the matching flow, the NAT-PMP external address is kept and filled in |
| Client.Context.CompareEpochs | libpcp/src/pcp_utils.h:148-164 | initialises an unknown epoch and reports a restart as the epoch lemmas say |
| Client.Context.HandleReceive | libpcp/src/pcp_event_handler.c:964-1007 | the state that follows, by result and epoch; refusals touch no flow; the invariant is kept and the epoch just received is not reported again |
| Client.Context.HandleWaitPingRespRecv | libpcp/src/pcp_event_handler.c:869-883 | the state that follows, by result and epoch, with the messages of all flows in place of the timers; the invariant is kept |
| Client.Context.BeginNatPmp | libpcp/src/pcp_event_handler.c:766-779 | the ping flow is a new registered announcement of this server with its addresses and nonce, the old one waits for the server without a timer, and the invariant is kept |
| Client.Context.HandleVersionNegotiation | libpcp/src/pcp_event_handler.c:885-943 | at version 0 the server is given up, else it has the version named or the next lower one; a supported version stays one and the invariant is kept |
| Client.Context.HandleServerNotWorking | libpcp/src/pcp_event_handler.c:1044-1078 | within the delay a message begins a restart not reported again, two results excepted, which change nothing; after it the server is pinged anew; the invariant is kept |
| Client.Context.HandleSendAllMsgs | libpcp/src/pcp_event_handler.c:945-952 | every flow that waited for the server or a reply has sent one message or failed, and the invariant is kept |
| Client.Context.HandleServerRestart | libpcp/src/pcp_event_handler.c:954-962 | every flow of the server but the announcing one has sent exactly one message or failed, no other changed, and the invariant is kept |
| Client.Context.HandleSetNotWorking | libpcp/src/pcp_event_handler.c:1027-1042 | every flow of the server has failed, granted ones sent once more or failed, no other changed, and the invariant is kept |
| Client.Context.RunServerStateMachine | libpcp/src/pcp_event_handler.c:1163-1198 | dispatch through the table to the handler |
| Client.Context.HServerIter | libpcp/src/pcp_event_handler.c:1205-1246 | the loop terminates and leaves the server settled |
| Client.Context.PcpPulse | libpcp/src/pcp_event_handler.c:1251-1316 | a message, then the timers of all servers, and the time to wait |
| Client.Context.AddFlow | libpcp/src/pcp_client_db.c:132-158 | registers the flow at its place in the walk |
| Client.Context.PcpNewFlow | libpcp/src/pcp_api.c:337-395 | the walk over the servers with roll-back makes all children, field by field as asked for, or none, and keeps the flows registered before |
| Client.Context.DeleteFlowIntern | libpcp/src/pcp_client_db.c:99-130 | the flow leaves the walk, the others stay in it, and no server refers to the flow any more |
| Client.Context.EvalFlowState | libpcp/src/pcp_api.c:133-181 | counts the final flows of a chain and says exactly when it succeeded, partly succeeded, is being processed or failed |

## Left out

- Sockets, packet information, Windows shims, gateway discovery, source address lookup and address parsing: operating-system calls; received bytes, addresses and send outcomes are inputs.
- Logging, printing in the mock server, the command-line application, bundled getopt and the scapy script.
- `pcp_wait`, a select loop around the pulse, and the SADSCP opcode with its padding.
- The change callback `flow_change_notify`, and callbacks that call back into the library.
- Clock within a call: termination, rest and timer results are for a clock held still during one call; `Runs.EveryStepIsSafe` and every `Handlers` lemma hold for any clock.
- Timers are total microseconds in the state machines; `TimevalModel` proves the seconds-and-microseconds code exact, but `time_t` is unbounded there.
- Retry and ping counts are unbounded: their 32-bit wrap-around would need 2^32 failures in a row.
- Flow and server records of the context object are elements of sequences and pointers to them are numbers, so aliasing between the state machines and the database is not captured there; the chains and the server array themselves are real objects.
- The message buffer kept between sends is not part of the flow record, and option fields are arguments of the builder.
- SADSCP and opcodes beyond ANNOUNCE, MAP and PEER: no message is built for them.
- The parsers and `validate_pcp_msg` are functions on the received buffer, not writes into the receive record.
- Allocation failure, except in flow creation; recycled server slots; failure inside server discovery.
- `pcp_terminate` with its flag to close flows first, which pulses inside an iteration that deletes.
- Setters of flow options other than the lifetime: they differ from it in the field they write.
- Runs.EveryRunIsSafe: an application passes handles of registered flows only, and each call runs under a clock held still.
- EndToEnd.ReplyFindsFlow: the reply is taken to arrive at the flow's source address and scope and from the address of the first server that matches it; the answer "unsupported version" is excluded since the server then replaces the version.
- Api.CreateAllOrNothing: starts at the walk over the servers, with the key that the first half of `pcp_new_flow` fills in; on failure the released records stay as unregistered ones.
- MockServer.RunWalk: reads past the buffer give 0, the size and version checks before the walk and the receive limit of the server are not modelled.
- Client.Context.PcpPulse: gives the wait in microseconds, as the updated argument has it, and not the return value cut to milliseconds; takes at most one received message, already read, and no error of the socket other than that there is none.
- Outgoing.ClosedFlowIsReleased: one flow is closed, and no message is waiting when the pulse reads the socket; `pcp_close_flow` closes all children of a chain before its pulse.
