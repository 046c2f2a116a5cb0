# A verified model of a USB Power Delivery port

The repository drives a USB-C port through a FUSB302 chip: a protocol and policy engine polled
once per loop, the arithmetic on power objects, and a register-level chip driver. This project
models the three layers in the shipped configuration (dual role and charge manager on; Revision
3.0, VCONN, Try.SRC and alternate modes off) and proves what they promise, over all inputs, all
runs and, for the negotiation, all interleavings of two ports.

How the files build on each other:

- `PdWords` — headers, power objects and request objects as bit fields.
- `PowerPolicy` — what a sink may draw, which request it builds, which request a source grants;
  the class `Policy` holds the stored capabilities.
- `PortState`, `PortMachine` — the state of a port and, handler by handler, one pass of the state
  machine as a function from the old state to the new. `PortRuns` adds the other events that reach
  a port (alerts, received hard resets, calls of the application) and runs of them.
- `PortSafety` — the invariant of all runs. `RoleAgreement` — roles and states. `PortPower` — the
  power path, with the exact set of events that break it. `HardResetBound`, `VdmBound`,
  `DebounceTrace`, `MessageIdentity` — bounds and traces. `PortGuarantees` — what all of this says
  about runs from the initial state, and where the code falls short. `LostTimers` — exactly when
  a pass or a call leaves a timed state without its timer.
- `PortAnswers`, `PortAttach`, `PortCases` — what a port says and does, message by message, line
  by line and state by state, in terms of what is on the wire rather than of the code.
  `PortService` — an attached port listens, a source supplies; with the exact exceptions.
- `Wires`, `TwoPorts` — a sink and a source joined by two channels; `Negotiation` — a course that
  completes. `PowerSwap` — a power swap between two ports; `SwapCourse` — one that completes.
- `Fusb302Registers`, `Fusb302Fifo` — the chip driver's effect on registers and FIFOs;
  `Fusb302` — the driver and chip as an object with a register array and in-place buffers.
- `PdPort` — the port as an object that owns chip and policy and changes its state step by step.
  Its record `pd` stands for the entry of the array of struct pd_protocol and the file-level
  statics, and is reassigned field by field; every method is proved equal to the function that
  specifies it. `Sketch` — the loop that drives it.

What is read from outside is a parameter: CC and VBUS readings, the board's decisions and checks,
`drp_state`, the selected capability, the clock (positive and non-decreasing) and, on the chip,
the voltages of the lines. `pd_transmit` does not wait in this code: it returns the status that the last
alert stored, and so does the model. A failed `pd_set_power_supply_ready` leaves VBUS off. Times
are in microseconds.

Some fields of the state exist only to state properties (`sent`, `history`, the object's `earlier` and `waiting`,
the chip's `log` and `air`); no branch reads them.

Where a natural statement is false of the code, the code is kept and the exact condition is proved:

- Role, pull and supply go wrong on exactly the events of `MessageRules`, `ButtonRules` and
  `CallRules`. One of them is easy to miss: PS_RDY that reaches SRC_SWAP_STANDBY before its entry
  action has run turns a source that still presents Rp into a sink.
- Nine timed states outside those of `NoLostTimers` can be left without their timer: SNK_DISCOVERY,
  SNK_REQUESTED, SNK_SWAP_INIT, SRC_DISCOVERY, SRC_ACCEPTED, DR_SWAP, SRC_SWAP_INIT,
  SRC_SWAP_SNK_DISABLE and SOFT_RESET. `PassLosesExactly` and `CallLosesExactly` say exactly when: a
  set_state outside the switch re-enters the state whose handler ran last, so that its entry action
  does not run again. From power-on six polls suffice to leave a source in SRC_SWAP_SNK_DISABLE
  (`StuckIsReachable`), where it stays (`StuckInSwap`).
- The timers keep to the ranges of the standard except exactly those that wait for an answer, which
  are set to 100 ms instead of 24 to 30 ms (`TimersKeepToStandard`).
- An attached port may end up deaf, or a source without VBUS, on exactly the events of
  `MessageServes`, `CallServes`, `ButtonServes` and `BoardServes`; for instance, a hard reset received
  while detached starts a recovery with the receiver off.
- A request built for a battery is granted exactly if the battery offers all that the board can take
  (`BatteryGrantedExactly`), because the code's product overflows (`BatteryIgnoresOffer`); for all
  other objects requests are granted (`RequestsAreGranted`).
- Role and state fit in every run in which a Request reaches only a source (`RolesAgree`); a
  detached port ignores messages exactly while they fit (`DetachedIgnoresExactly`).

## Model

| member | source | states |
|---|---|---|
| TwoPorts.TwoPortsAgree | NOA_ESP32_PD/usb_pd_protocol.cpp:2975-3010 | Sink and source joined by two lossless in-order channels: after every course of passes, deliveries, acknowledgements and harmless calls, whenever the sink is in SNK_READY the source last switched to exactly the position the sink asked for, and the sink's limit is the power extracted from that object |
| TwoPorts.CourseAgrees | NOA_ESP32_PD/usb_pd_protocol.cpp:1079-1157 | The agreement of both halves and of everything on its way survives every course, through repeated and crossing renegotiations |
| TwoPorts.MoveAgrees | NOA_ESP32_PD/usb_pd_protocol.cpp:2132-3427 | Every single move of the pair keeps the agreement |
| TwoPorts.SinkPass | NOA_ESP32_PD/usb_pd_protocol.cpp:1087-1118 | What a sink does with each message the agreement allows: answers an offer with a request that offer grants, follows Accept and PS_RDY silently, asks again only when ready |
| TwoPorts.SourcePass | NOA_ESP32_PD/usb_pd_protocol.cpp:1120-1157 | What a source does with each message the agreement allows: accepts a request it can grant, switches before it reports, offers again only when settled |
| TwoPorts.SinkKeepsStep | NOA_ESP32_PD/usb_pd_protocol.cpp:1418-1453 | The states of both ports and the signals in flight stay in step when the sink hears the oldest signal or nothing; the agreement never lets an unexpected signal reach it |
| TwoPorts.SourceKeepsStep | NOA_ESP32_PD/usb_pd_protocol.cpp:2424-2499 | The same for the source |
| PowerSwap.SwapIsSafe | NOA_ESP32_PD/usb_pd_protocol.cpp:2606-2666 | Two ports joined by lossless in-order channels, either of which may ask for a power swap, any number of times, accepted or rejected: in every interleaving of passes, deliveries and acknowledgements at most one drives VBUS and at most one presents Rp; a sink that still draws after the cut has the source's Accept on its way to it; between attempts the roles are the old ones, and once the former source has become a sink the other is a source that supplies |
| PowerSwap.CourseAgrees | NOA_ESP32_PD/usb_pd_protocol.cpp:3040-3123 | The agreement of both ports and of what is on its way that this rests on survives every course |
| PowerSwap.MoveAgrees | NOA_ESP32_PD/usb_pd_protocol.cpp:2606-2666 | Every single move keeps it |
| PowerSwap.GiverPass | NOA_ESP32_PD/usb_pd_protocol.cpp:2606-2666 | What the port that gives up the source role does with each message the agreement allows, and without one: accepts or rejects as the board decides, waits, cuts the supply, reports, and becomes a sink on the partner's PS_RDY |
| PowerSwap.TakerPass | NOA_ESP32_PD/usb_pd_protocol.cpp:3040-3123 | What the port that takes over does: stops drawing before it waits, switches Rp and VBUS on only after the report, then reports and is a source |
| PowerSwap.GiverKeepsStep | NOA_ESP32_PD/usb_pd_protocol.cpp:1459-1475 | The agreement never lets an unexpected message reach the port that gives up, and its reactions keep it |
| PowerSwap.TakerKeepsStep | NOA_ESP32_PD/usb_pd_protocol.cpp:1320-1345 | The same for the port that takes over |
| SwapCourse.SwapCompletes | NOA_ESP32_PD/usb_pd_protocol.cpp:1201-1209 | From every start a call and eight passes on non-decreasing clocks exchange the roles |
| Negotiation.NegotiationCompletes | NOA_ESP32_PD/usb_pd_protocol.cpp:2424-2499 | From every start in which the source still advertises, and from wherever both clocks stand, there are seven passes on non-decreasing clocks after which the sink is ready, so the agreement is not about an empty set of courses |
| PortGuarantees.PowerPathIsSafe | NOA_ESP32_PD/usb_pd_protocol.cpp:326-406 | In every run from pd_init without a harmful event: role SOURCE presents Rp, role SINK presents Rd with VBUS not driven except in the last stages of a swap to source, every state and every armed timer fits the role, and a detached port is not connected |
| PortPower.RunRules | NOA_ESP32_PD/usb_pd_protocol.cpp:2132-3427 | The invariant behind it holds in every unharmed run |
| PortPower.PassRules | NOA_ESP32_PD/usb_pd_protocol.cpp:2132-3427 | Every pass without a harmful event keeps it |
| PortPower.MessageRules | NOA_ESP32_PD/usb_pd_protocol.cpp:1079-1571 | The message handlers keep it if and only if the message is none of five: a Request to a sink; a Soft_Reset or an allowed PR_Swap in SNK_SWAP_STANDBY past its entry action or in SNK_SWAP_COMPLETE; PS_RDY in SNK_SWAP_COMPLETE; PS_RDY in SRC_SWAP_STANDBY before its entry action |
| PortPower.CallRules | NOA_ESP32_PD/usb_pd_protocol.cpp:3642-3658 | The calls of the application keep it if and only if they are not a soft reset in the last stages of a swap, or pd_request_source_voltage while VBUS is driven outside SNK_READY and SNK_TRANSITION |
| PortPower.ButtonRules | NOA_ESP32_PD/usb_pd_protocol.cpp:2135-2136 | The button keeps it if and only if it is not pressed in the last stages of a swap |
| PortPower.SourceReadyRules | NOA_ESP32_PD/usb_pd_protocol.cpp:2500-2666 | Every case from SRC_READY to SRC_SWAP_STANDBY keeps it; in particular the supply is off from the entry into SRC_SWAP_SRC_DISABLE on |
| PortPower.AlertRules | NOA_ESP32_PD/FUSB302.cpp:851-917 | No alert breaks it |
| PortService.ServiceIsKept | NOA_ESP32_PD/usb_pd_protocol.cpp:2289-2363 | In every run from pd_init without a listed event an attached port has its receiver on and acknowledges in its own roles (except for the power role between the two PS_RDY of a swap), and a source past its debounce that is neither recovering nor swapping drives VBUS |
| PortService.RunServes | NOA_ESP32_PD/usb_pd_protocol.cpp:2132-3427 | The invariant behind it holds in every such run |
| PortService.PassServes | NOA_ESP32_PD/usb_pd_protocol.cpp:2132-3427 | Every such pass keeps it |
| PortService.MessageServes | NOA_ESP32_PD/usb_pd_protocol.cpp:1079-1571 | Of the messages that do not break the rules of the power path exactly those break it that move a source without supply, or a port between the two PS_RDY of a swap, back into operation: Soft_Reset, an allowed PR_Swap, and for a source a Request unless the Accept for it fails |
| PortService.CallServes | NOA_ESP32_PD/usb_pd_protocol.cpp:3642-3658 | Of the alerts and calls exactly a hard reset received while detached or between the two PS_RDY, and a soft reset asked for by such a source or port, break it |
| PortService.ButtonServes | NOA_ESP32_PD/usb_pd_protocol.cpp:2135-2136 | The button breaks it exactly while detached or in one of these situations |
| PortService.BoardServes | NOA_ESP32_PD/usb_pd_protocol.cpp:2145-2152 | A failed board check breaks it exactly while detached or between the two PS_RDY |
| PortService.HandlerServes | NOA_ESP32_PD/usb_pd_protocol.cpp:2223-3357 | No case of the switch breaks it |
| RoleAgreement.RolesAgree | NOA_ESP32_PD/usb_pd_protocol.cpp:1200-1243 | In every run in which a Request reaches only a source, whatever else happens: every SNK_* state has role SINK, every SRC_* state role SOURCE except SRC_SWAP_STANDBY past its entry action, and every armed timer leads to a state of the role it fires under |
| RoleAgreement.MessageAgrees | NOA_ESP32_PD/usb_pd_protocol.cpp:1079-1571 | Of all messages in all states exactly a Request that reaches a sink breaks this |
| RoleAgreement.PassAgrees | NOA_ESP32_PD/usb_pd_protocol.cpp:2132-3427 | Every pass without such a Request keeps it |
| RoleAgreement.CallAgrees | NOA_ESP32_PD/usb_pd_protocol.cpp:3642-3658 | No call of the application and no alert breaks it |
| PortSafety.RunKeeps | NOA_ESP32_PD/usb_pd_protocol.cpp:2132-3427 | The whole invariant (timers, contract, voltage order, debounce, reset counter, silence) holds in every state of every run, for any partner, board and application |
| PortSafety.AfterKeeps | NOA_ESP32_PD/usb_pd_protocol.cpp:2132-3427 | Every event keeps it: a pass, an alert, a received hard reset, each call of the application |
| PortSafety.PassKeeps | NOA_ESP32_PD/usb_pd_protocol.cpp:2132-3427 | Every pass keeps it, through button, VDM, board check, message, switch, timer check and detach check |
| PortSafety.ControlKeeps | NOA_ESP32_PD/usb_pd_protocol.cpp:1276-1516 | Every control message in every state leaves timers, contract, voltage record, debounce record and receiver consistent for the switch that follows |
| PortSafety.DataKeeps | NOA_ESP32_PD/usb_pd_protocol.cpp:1079-1198 | The same for every data message |
| PortSafety.HandlerKeeps | NOA_ESP32_PD/usb_pd_protocol.cpp:2223-3357 | Every case of the switch re-establishes the full invariant from the weaker one that holds in the middle of a pass |
| PortSafety.ResetKeeps | NOA_ESP32_PD/usb_pd_protocol.cpp:879-930 | A hard reset at any moment keeps it |
| PortSafety.TimerKeeps | NOA_ESP32_PD/usb_pd_protocol.cpp:3363-3372 | A firing timer keeps it, whichever successor it leads to |
| PortSafety.DetachKeeps | NOA_ESP32_PD/usb_pd_protocol.cpp:3374-3427 | The detach check keeps it |
| PortSafety.AlertKeeps | NOA_ESP32_PD/FUSB302.cpp:851-917 | An alert with any combination of interrupts keeps it |
| PortSafety.SrcStartupKeeps | NOA_ESP32_PD/usb_pd_protocol.cpp:2395-2423 | SRC_STARTUP, run in the middle of any pass, restores the whole invariant; in particular the port is past the entry only with a timer that leads to SRC_DISCOVERY |
| PortSafety.SrcNegociateKeeps | NOA_ESP32_PD/usb_pd_protocol.cpp:2460-2467 | The same for SRC_NEGOCIATE, whose timer leads to HARD_RESET_SEND |
| PortSafety.SrcAcceptedKeeps | NOA_ESP32_PD/usb_pd_protocol.cpp:2468-2476 | The same for SRC_ACCEPTED; a timer it runs under lies at least 35 ms after the Accept and leads to SRC_POWERED |
| PortSafety.SrcPoweredKeeps | NOA_ESP32_PD/usb_pd_protocol.cpp:2477-2487 | The same for SRC_POWERED; past its entry the granted position is the supplied one, switched at least 35 ms after the Accept, and the timer lies at least 10 ms after the switch |
| PortSafety.SrcGetSinkCapKeeps | NOA_ESP32_PD/usb_pd_protocol.cpp:2576-2582 | The same for SRC_GET_SINK_CAP, whose timer leads back to SRC_READY |
| PortSafety.SrcSwapSnkDisableKeeps | NOA_ESP32_PD/usb_pd_protocol.cpp:2628-2635 | The same for SRC_SWAP_SNK_DISABLE; a timer it runs under leads to SRC_SWAP_SRC_DISABLE |
| PortSafety.SrcSwapSrcDisableKeeps | NOA_ESP32_PD/usb_pd_protocol.cpp:2636-2645 | The same for SRC_SWAP_SRC_DISABLE, which is never past its entry without a timer to SRC_SWAP_STANDBY |
| PortSafety.SnkDiscoveryKeeps | NOA_ESP32_PD/usb_pd_protocol.cpp:2906-2949 | The same for SNK_DISCOVERY; a timer leads to HARD_RESET_SEND only while hard_reset_count leaves a reset |
| PortSafety.SnkRequestedKeeps | NOA_ESP32_PD/usb_pd_protocol.cpp:2975-2984 | The same for SNK_REQUESTED, whose timers lead to HARD_RESET_SEND or SNK_READY |
| PortSafety.SnkTransitionKeeps | NOA_ESP32_PD/usb_pd_protocol.cpp:2985-2992 | The same for SNK_TRANSITION, which is never past its entry without a timer to HARD_RESET_SEND, nor without EXPLICIT_CONTRACT |
| PortSafety.SnkSwapSrcDisableKeeps | NOA_ESP32_PD/usb_pd_protocol.cpp:3074-3081 | The same for SNK_SWAP_SRC_DISABLE, which draws nothing while its timer to HARD_RESET_SEND runs |
| PortGuarantees.NoLostTimers | NOA_ESP32_PD/usb_pd_protocol.cpp:3357-3372 | At the end of every pass of every run, a port past the entry action of one of ten timed states, or of HARD_RESET_SEND once the signal went out, has a running timer with a designated successor and a deadline later than the last clock reading |
| PortGuarantees.TimersAhead | NOA_ESP32_PD/usb_pd_protocol.cpp:261-267 | A timer that survives a pass has its deadline after the last clock reading of the pass, whatever armed it |
| LostTimers.PassLosesExactly | NOA_ESP32_PD/usb_pd_protocol.cpp:1538-1571 | For each of the other nine timed states and every pass of a port that satisfies the invariant and still has its timer: if the state is the last state when the message is handled, the pass ends in it without a timer if and only if a set_state outside the switch re-enters it (the message by state and role: Soft_Reset, Accept, PS_RDY, Reject, Wait, Source_Capabilities, a granted Request or an allowed PR_Swap; or the button) and the port then stays attached and sends no acknowledged offer; if it is not the last state, only where no timer is meant (resets used up, or no known partner) |
| LostTimers.CallLosesExactly | NOA_ESP32_PD/usb_pd_protocol.cpp:3642-3658 | Between passes the timer of such a state is lost if and only if the state is the last one and a call of the application sets it: a swap request in a ready state, or a soft reset |
| LostTimers.MessageExact | NOA_ESP32_PD/usb_pd_protocol.cpp:1276-1516 | Of all messages in all states exactly the listed ones leave such a state without a timer |
| LostTimers.RestExact | NOA_ESP32_PD/usb_pd_protocol.cpp:2223-3427 | The rest of a pass leaves such a state past its entry without a timer exactly if it came without one, stays attached (or is swapping), and sends no acknowledged offer |
| LostTimers.EntryArms | NOA_ESP32_PD/usb_pd_protocol.cpp:2223-3357 | An entry action that runs arms a timer or moves the port on, except where none is meant |
| LostTimers.TimedStates | NOA_ESP32_PD/usb_pd_protocol.cpp:261-267 | These nine and the eleven of NoLostTimers are all the states from which a timer leads on |
| LostTimers.StuckIsReachable | NOA_ESP32_PD/usb_pd_protocol.cpp:1459-1471 | Six polls from pd_init on a non-decreasing clock, with two PR_Swap messages, leave the port in SRC_SWAP_SNK_DISABLE past its entry action without a timer |
| LostTimers.StuckInSwap | NOA_ESP32_PD/usb_pd_protocol.cpp:3374-3379 | From there no number of passes without message, reset or call frees the port; not even the detach check runs |
| PortGuarantees.TimersKeepToStandard | NOA_ESP32_PD/usb_pd.h:150-181 | Every timer a case of the switch arms leads to a designated successor and keeps to the range that the standard gives for it, except exactly the timers of the seven states that wait for an answer: these run longer than the 24 to 30 ms allowed |
| PortGuarantees.DrawsNothingUncontracted | NOA_ESP32_PD/usb_pd_protocol.cpp:353-365 | In every run the input limit is zero while the port is detached, waits for VBUS after a hard reset, or swaps to source |
| PortGuarantees.ContractsAreExplicit | NOA_ESP32_PD/usb_pd_protocol.cpp:1436-1450 | SNK_TRANSITION, SRC_ACCEPTED, SRC_POWERED and SRC_TRANSITION are only ever occupied with EXPLICIT_CONTRACT set, across messages, timers and swaps |
| PortGuarantees.OnlyPoweredSwitches | NOA_ESP32_PD/usb_pd_protocol.cpp:2477-2487 | Of all cases of the switch only the entry into SRC_POWERED changes the supplied position, and to the requested one |
| PortGuarantees.RecordsGrants | NOA_ESP32_PD/usb_pd_protocol.cpp:1129-1155 | The record of position and time that the next two rows speak of is that of the last request that passed the check and was accepted, the time read after the Accept went out: every such request, and nothing else in a pass, writes it |
| PortGuarantees.SwitchesAsAccepted | NOA_ESP32_PD/usb_pd_protocol.cpp:1129-1156 | That position is the one of the last request that passed the check, lies in 1..pd_src_pdo_cnt, and in every run the switch comes at least 35 ms after the first clock reading that follows the Accept |
| PortGuarantees.PsRdyFollowsSwitch | NOA_ESP32_PD/usb_pd_protocol.cpp:2488-2498 | PS_RDY of SRC_TRANSITION comes at least 10 ms after the switch, with the requested position supplied, in every run |
| PortGuarantees.OfferIsRemembered | NOA_ESP32_PD/usb_pd_protocol.cpp:1022-1077 | What a partner packs with PDO_FIXED into the first object of its offer is what a waiting sink remembers of it in its four partner flags; an offer that starts with another kind of object changes none of them |
| PortGuarantees.SinkCapsAreRemembered | NOA_ESP32_PD/usb_pd_protocol.cpp:1181-1187 | The same for the first object of a Sink_Capabilities message, in any state |
| PortGuarantees.UpdatedOfferIsSent | NOA_ESP32_PD/usb_pd_protocol.cpp:3673-3681 | After pd_update_contract the next free pass in SRC_READY sends all source objects, and the mark is cleared exactly if that was acknowledged; in states without a contract the call changes nothing |
| PortGuarantees.DetachedIsSilent | NOA_ESP32_PD/usb_pd_protocol.cpp:336-406 | In every run the receiver is off in the four detached states, the early returns of set_state notwithstanding |
| PortGuarantees.DetachedIgnoresExactly | NOA_ESP32_PD/usb_pd_protocol.cpp:1553-1558 | A detached port ignores every message if and only if its role fits its state; otherwise it counts as connected and obeys, say, a Soft_Reset |
| PortGuarantees.QuietStretchesResetTwice | NOA_ESP32_PD/usb_pd_protocol.cpp:3212-3259 | After any run, in any stretch with no message, failed board check, local reset or call in which the port stays an attached sink, it visits HARD_RESET_SEND at most PD_HARD_RESET_COUNT times, however often the transmission is retried |
| HardResetBound.HardResetsAreBounded | NOA_ESP32_PD/usb_pd_protocol.cpp:3212-3259 | The same from any state that satisfies the invariant |
| HardResetBound.StepPays | NOA_ESP32_PD/usb_pd_protocol.cpp:2846-2937 | Every quiet event pays for an entry into HARD_RESET_SEND out of what hard_reset_count leaves |
| HardResetBound.RunPays | NOA_ESP32_PD/usb_pd_protocol.cpp:2861-2871 | The entries of a quiet run never exceed that budget |
| DebounceTrace.AttachIsDebounced | NOA_ESP32_PD/usb_pd_protocol.cpp:2289-2363 | Every attach, as source or as sink, ends a run whose last passes, over at least 100 ms, all found the port in the same debounce state and classified CC alike (section 4.5.2 of the USB Type-C specification) |
| DebounceTrace.RunIsRecorded | NOA_ESP32_PD/usb_pd_protocol.cpp:2765-2792 | In every run, in a debounce state past its first pass, the recorded classification and start time describe a real tail of the run |
| DebounceTrace.PrefixUndebounced | NOA_ESP32_PD/usb_pd_protocol.cpp:1538-1571 | Nothing before the switch leads into a debounce state |
| MessageIdentity.MessageIdIsCount | NOA_ESP32_PD/usb_pd_protocol.cpp:428-454 | In every run msg_id is the number of success notifications since it was last zeroed, modulo 8 |
| MessageIdentity.PassId | NOA_ESP32_PD/usb_pd_protocol.cpp:879-938 | A pass zeroes msg_id exactly on a failed board check, on Soft_Reset, on Accept in SOFT_RESET, on PS_RDY in SRC_SWAP_STANDBY, and in five handlers, and otherwise keeps it |
| MessageIdentity.ControlId | NOA_ESP32_PD/usb_pd_protocol.cpp:1276-1516 | Which control messages zero it, and that the others keep it |
| MessageIdentity.PassNumbers | NOA_ESP32_PD/usb_pd_protocol.cpp:572-584 | Every message a pass sends carries the msg_id the pass started with, or 0 after it was zeroed |
| MessageIdentity.HeaderDecodes | NOA_ESP32_PD/usb_pd.h:919-930 | Every header handed to the driver decodes to the fields it was built from; a Soft_Reset carries ID 0 |
| PdWords.HeaderRoundTrip | NOA_ESP32_PD/usb_pd.h:919-930 | Type, count, ID, revision and both role bits are read back from the header word |
| PdWords.HeaderIsOr | NOA_ESP32_PD/usb_pd.h:919-922 | The header is the `|` of its shifted fields in the macro's order |
| PdWords.RdoFixedRoundTrip | NOA_ESP32_PD/usb_pd.h:113-128 | Position, both currents and the mismatch flag are read back from the request word |
| PdWords.RdoFixedIsOr | NOA_ESP32_PD/usb_pd.h:125-128 | The fixed request is the `|` of its shifted and masked fields in the macro's order |
| PdWords.RdoBatteryIsOr | NOA_ESP32_PD/usb_pd.h:131-134 | So is the battery request, whose two power fields fall on the same bits, when both carry the same power |
| PdWords.PdoFixedRoundTrip | NOA_ESP32_PD/usb_pd.h:80-90 | Type, both fields and the four flags are read back from a fixed object |
| VdmBound.ExchangesEnd | NOA_ESP32_PD/usb_pd_protocol.cpp:1633-1686 | In every run a pass more than half a second after the last finds no VDM exchange still waiting for an answer, unless it sent the message itself |
| VdmBound.RunIsDue | NOA_ESP32_PD/usb_pd_protocol.cpp:846-863 | In every run the deadline of an exchange in progress lies at most the time its header allows ahead |
| VdmBound.ReadyMayQueue | NOA_ESP32_PD/usb_pd_protocol.cpp:2537-2562 | A ready port queues a message only while none waits for an answer |
| VdmBound.QueuedIsSent | NOA_ESP32_PD/usb_pd_protocol.cpp:1573-1591 | What pd_send_vdm queues goes out as one Vendor_Defined message, header first, with the next pass of a ready port, which then waits for the answer if and only if the transmission counts as successful; a message of more than seven objects is not queued |
| VdmBound.VdmHeaderFields | NOA_ESP32_PD/usb_pd.h:302-305 | Vendor, structure bit and command are read back from the VDM header word |
| VdmBound.BusyIsRetried | NOA_ESP32_PD/usb_pd_protocol.cpp:846-863 | A busy answer to a waiting exchange leads to a retry with the same vendor and command as initiator, in the first pass more than 100 ms later and in none before; any other answer ends the exchange |
| VdmBound.ExchangeWaits | NOA_ESP32_PD/usb_pd_protocol.cpp:1609-1632 | How long an exchange waits for its answer, by structure, command type and mode: the limits of the standard for initiator and responder |
| VdmBound.QueuedWaits | NOA_ESP32_PD/usb_pd_protocol.cpp:1633-1660 | A queued message waits for a ready state and is given up while the port is not connected |
| PortAnswers.PrSwapIsAnswered | NOA_ESP32_PD/usb_pd_protocol.cpp:1459-1475 | A PR_Swap that reaches a connected port is answered with Accept, the swap state of its role, no timer and CHECK_PR_ROLE cleared exactly if the board allows it, and otherwise with Reject and no other effect |
| PortAnswers.DrSwapIsAnswered | NOA_ESP32_PD/usb_pd_protocol.cpp:1479-1493 | A DR_Swap is answered with Accept if the board allows it, and the data role changes, for the port and for its acknowledgements, exactly if that Accept counts as delivered; otherwise with Reject and no other effect |
| PortAnswers.VconnSwapIsRejected | NOA_ESP32_PD/usb_pd_protocol.cpp:1494-1514 | A VCONN_Swap is answered with Reject and no other effect |
| PortAnswers.SoftResetIsAnswered | NOA_ESP32_PD/usb_pd_protocol.cpp:1454-1458 | A Soft_Reset leads to the discovery state of the role with counter 0 and no timer, and to an Accept with message ID 0 |
| PortAnswers.GetSourceCapIsAnswered | NOA_ESP32_PD/usb_pd_protocol.cpp:1289-1294 | Answered with all source objects, or Reject without any; a source that was about to offer waits for the request exactly if the answer counts as delivered |
| PortAnswers.GetSinkCapIsAnswered | NOA_ESP32_PD/usb_pd_protocol.cpp:1295-1302 | Answered with all sink objects and no other effect |
| PortAnswers.AcceptIsFollowed | NOA_ESP32_PD/usb_pd_protocol.cpp:1418-1453 | Accept has an effect in exactly five states, and there the one its request waits for; it is never answered |
| PortAnswers.PsRdyIsFollowed | NOA_ESP32_PD/usb_pd_protocol.cpp:1320-1355 | What PS_RDY does in each state; where it makes a sink ready the limit is that of its last request |
| PortAnswers.RefusalEndsAttempt | NOA_ESP32_PD/usb_pd_protocol.cpp:1356-1417 | Reject and Wait end a swap in the ready state of the role and send a request without a contract back to discovery |
| PortAnswers.RejectKeepsContract | NOA_ESP32_PD/usb_pd_protocol.cpp:1356-1417 | Under a contract a rejected request is given up |
| PortAnswers.WaitIsRetried | NOA_ESP32_PD/usb_pd_protocol.cpp:1356-1417 | Under a contract Wait brings the sink back to ready 100 ms later, where its request goes out again even for an unchanged voltage |
| PortAnswers.OtherControlsAreIgnored | NOA_ESP32_PD/usb_pd_protocol.cpp:1276-1516 | All other control messages change and send nothing |
| PortAnswers.RequestIsJudged | NOA_ESP32_PD/usb_pd_protocol.cpp:1120-1163 | A source accepts exactly the request words whose position is offered and whose currents, read off the packed words, are covered or marked as a mismatch; it notes position and contract exactly if the Accept counts as delivered; everything else gets Reject |
| PortAnswers.PackedRequestIsJudged | NOA_ESP32_PD/usb_pd_protocol.cpp:1120-1163 | The same for supplies and requests as PDO_FIXED and RDO_FIXED pack them: Accept and SRC_ACCEPTED exactly if 1 <= n <= pd_src_pdo_cnt, the operating current is covered in steps of 10 mA, and so is the maximum, or the mismatch flag is set |
| PortAnswers.PackedIsAcceptable | NOA_ESP32_PD/usb_pd_policy.cpp:21-75 | The condition on the words is that on the macros' arguments |
| PortAnswers.OfferIsAnswered | NOA_ESP32_PD/usb_pd_protocol.cpp:1087-1118 | Where an offer is awaited it is answered with one request for the selected position at the extracted power, which becomes the limit; elsewhere it is ignored |
| PortAnswers.BistIsObeyed | NOA_ESP32_PD/usb_pd_protocol.cpp:1164-1180 | Only carrier mode 2 in the ready state of the role is obeyed: the carrier goes out, and the port is detached, silent and supplies nothing |
| PortAnswers.SinkCapIsNoted | NOA_ESP32_PD/usb_pd_protocol.cpp:1181-1187 | Noted in any state, and the end of the wait in SRC_GET_SINK_CAP |
| PortAnswers.VendorTouchesExchange | NOA_ESP32_PD/usb_pd_protocol.cpp:1192-1194 | Concerns only an exchange that waits for an answer |
| PortAnswers.OtherDataIsIgnored | NOA_ESP32_PD/usb_pd_protocol.cpp:1079-1198 | All other data messages change and send nothing |
| PortAnswers.AlertIsReported | NOA_ESP32_PD/FUSB302.cpp:851-917 | After an alert the last message counts as delivered exactly if a hard reset was sent, or a message got through and no retry failed, or it did before and no interrupt says otherwise; the counter moves by the successes, and a received hard reset zeroes it |
| PortAttach.SinkAttachesExactly | NOA_ESP32_PD/usb_pd_protocol.cpp:2765-2845 | A debouncing sink attaches exactly if it still sees what it has debounced, for long enough, and VBUS |
| PortAttach.SinkChoosesItsLine | NOA_ESP32_PD/usb_pd_protocol.cpp:2808-2843 | It then uses a line with Rp, the one with the higher current if both carry it, with the receiver on, acknowledging as UFP in its role, counter 0, and asks for the source's capabilities |
| PortAttach.SourceAttachesExactly | NOA_ESP32_PD/usb_pd_protocol.cpp:2289-2363 | A debouncing source attaches exactly if it still sees the sink or debug accessory it has debounced, for long enough, and the supply comes up |
| PortAttach.SourceChoosesItsLine | NOA_ESP32_PD/usb_pd_protocol.cpp:2320-2363 | It then uses a line with Rd, with supply and receiver on, acknowledging as DFP in its role |
| PortAttach.DebouncingSuppliesNothing | NOA_ESP32_PD/usb_pd_protocol.cpp:2289-2363 | Until then nothing is switched on |
| PortAttach.SinkToggles | NOA_ESP32_PD/usb_pd_protocol.cpp:2701-2764 | A detached sink debounces exactly if a line is not open, and toggles exactly if both are, toggling is on and its time is over; then it presents Rp for 30 ms |
| PortAttach.SourceToggles | NOA_ESP32_PD/usb_pd_protocol.cpp:2229-2288 | A detached source debounces exactly if it sees a sink or an accessory, and toggles exactly if it does not, is neither forced nor frozen, and its time is over; then it presents Rd for 40 ms |
| PortAttach.DetachesExactly | NOA_ESP32_PD/usb_pd_protocol.cpp:3374-3427 | A source detaches exactly when the line in use is open, a sink when VBUS is gone, except in the states of a swap and, for a sink, around a hard reset; limit, receiver and a source's supply are then off |
| PortCases.CasesSpeak | NOA_ESP32_PD/usb_pd_protocol.cpp:2223-3357 | Which message or signal, if any, each case of the switch sends, in all states but SNK_READY: swap requests, Soft_Reset and PS_RDY once on entry, offers up to fifty times, questions up to three times, the hard reset until it counts as sent |
| PortCases.SinkRenews | NOA_ESP32_PD/usb_pd_protocol.cpp:2993-3019 | A ready sink asks again exactly if a renewal is pending, no vendor message waits and the selected object has another voltage than last asked for |
| PortCases.SentOrNot | NOA_ESP32_PD/usb_pd_protocol.cpp:2583-2627 | An unacknowledged swap request falls back to a soft reset, a soft reset to a hard reset, and an unacknowledged PS_RDY detaches |
| PortCases.OffersAreCounted | NOA_ESP32_PD/usb_pd_protocol.cpp:2440-2459 | At most fifty offers go unacknowledged; an acknowledged one starts both counts over |
| PortCases.SwapEnds | NOA_ESP32_PD/usb_pd_protocol.cpp:3102-3123 | The end of a swap: a source with its supply, or, unheard, a detached sink with Rd and everything off |
| PortCases.PoliciesInOrder | NOA_ESP32_PD/usb_pd_protocol.cpp:2532-2562 | A free pass in a ready state settles one matter: power role, then data role, then, as DFP, the partner's identity |
| PortCases.HardResetHas | NOA_ESP32_PD/usb_pd_protocol.cpp:879-930 | A hard reset from any state: counter 0, a sink draws nothing, a source supplies nothing and may come back between 660 ms and 1 s later, an interrupted swap is undone |
| PortCases.SourceRecoversExactly | NOA_ESP32_PD/usb_pd_protocol.cpp:2370-2394 | A source supplies again exactly when its recovery time is over and the supply comes up |
| PortCases.SinkRecoversExactly | NOA_ESP32_PD/usb_pd_protocol.cpp:2846-2905 | A sink comes back exactly when VBUS is there after it was seen off since the reset |
| PortCases.ResetIsSent | NOA_ESP32_PD/usb_pd_protocol.cpp:3212-3259 | Every visit is counted; once the signal counts as sent a sink resets at once, a source 25 ms later |
| PortCases.FailedBoardResets | NOA_ESP32_PD/usb_pd_protocol.cpp:2145-2152 | A failed board check resets the port and then signals a hard reset; a passed one changes nothing |
| PortCases.ResetIsExecuted | NOA_ESP32_PD/usb_pd_protocol.cpp:3260-3273 | A hard reset is executed for the role, and takes back Rp after an interrupted swap |
| PortCases.StartupIsFresh | NOA_ESP32_PD/usb_pd_protocol.cpp:2395-2423 | A source starts with counter 0, no attempts counted and its timer to SRC_DISCOVERY 10 ms after the supply came up |
| PortCases.RequestForgivesResets | NOA_ESP32_PD/usb_pd_protocol.cpp:2975-2984 | On the entry into SNK_REQUESTED hard_reset_count starts over |
| PortCases.NewPowerIsAsked | NOA_ESP32_PD/usb_pd_protocol.cpp:1983-1988 | After pd_set_new_power_request the next free pass asks for a changed voltage |
| PortCases.PingsAsEnabled | NOA_ESP32_PD/usb_pd_protocol.cpp:1914-1920 | An idle ready source pings exactly if pings are enabled |
| PortCases.SourceVoltageIsAsked | NOA_ESP32_PD/usb_pd_protocol.cpp:3642-3658 | pd_request_source_voltage renews the request of a sink under a contract and turns any other port into a detached sink, without touching VBUS |
| PortCases.SwapsAreStarted | NOA_ESP32_PD/usb_pd_protocol.cpp:1201-1243 | Swaps are started from the ready state of the role only, a soft reset while attached only, each with no timer running |
| PowerPolicy.RequestsAreGranted | NOA_ESP32_PD/usb_pd_policy.cpp:21-75 | For every list of one to seven objects and every selected one that is no battery, the request built from the received list passes the source's check against that list, whatever was stored before |
| PowerPolicy.BuiltIsGranted | NOA_ESP32_PD/usb_pd_policy.cpp:173-231 | The same for any table that agrees with the source's list in the selected slot |
| PowerPolicy.RequestFields | NOA_ESP32_PD/usb_pd_policy.cpp:173-231 | Position, currents and flag of the built request; the flag is set exactly when less than 2,250,000 uW is on offer |
| PowerPolicy.PowerBound | NOA_ESP32_PD/usb_pd_policy.cpp:150-171 | For every object that is no battery: at most 5000 mA, at most the offered current, and a product of at most 60,000,000, so the signed multiplication cannot overflow |
| PowerPolicy.PowerMaximal | NOA_ESP32_PD/usb_pd_policy.cpp:150-171 | No larger current meets the three bounds |
| PowerPolicy.BatteryIgnoresOffer | NOA_ESP32_PD/usb_pd_policy.cpp:150-171 | For every battery object the limit is the board's 60 W and 5 A at its voltage, whatever power it offers unless that is none: the product overflows |
| PowerPolicy.BatteryGrantedExactly | NOA_ESP32_PD/usb_pd_policy.cpp:173-231 | A request built for a battery passes the source's check if and only if the battery offers, in steps of 250 mW, the whole power the board can take at its voltage |
| PowerPolicy.Policy.constructor | NOA_ESP32_PD/usb_pd_policy.cpp:78-83 | The table starts empty, the ceiling at the board's maximum |
| PowerPolicy.Policy.ProcessSourceCap | NOA_ESP32_PD/usb_pd_policy.cpp:233-253 | The received objects replace the front of the table, the later slots keep their contents, and the limit is extracted from the selected slot afterwards |
| Fusb302Registers.SwitchMatrixIsSafe | NOA_ESP32_PD/FUSB302.cpp:367-432 | From power-on through init and any sequence of driver calls: after every single write to SWITCHES0 no line is pulled both ways and at most one VCONN switch is closed; between calls VCONN, pulls, receive line, transmit line, AUTO_GCRC and the BC_LVL mask are where the driver's own state says |
| Fusb302Registers.CallsKeep | NOA_ESP32_PD/FUSB302.cpp:96-252 | Any sequence of calls keeps that |
| Fusb302Registers.DoKeeps | NOA_ESP32_PD/FUSB302.cpp:434-673 | Every single call keeps that |
| Fusb302Registers.InitKeeps | NOA_ESP32_PD/FUSB302.cpp:367-427 | Init establishes it after a software reset and keeps the pulls |
| Fusb302Registers.SetPolarityKeeps | NOA_ESP32_PD/FUSB302.cpp:520-569 | set_polarity moves VCONN, receive and transmit line together and leaves the pulls |
| Fusb302Registers.SetVconnKeeps | NOA_ESP32_PD/FUSB302.cpp:571-601 | set_vconn closes the switch of the line that is not the CC line, or none |
| Fusb302Registers.SetCcKeeps | NOA_ESP32_PD/FUSB302.cpp:447-518 | set_cc leaves exactly Rp or exactly Rd on both lines |
| Fusb302Registers.SetMsgHeaderKeeps | NOA_ESP32_PD/FUSB302.cpp:603-620 | set_msg_header gives the automatic GoodCRC the two roles and touches nothing else |
| Fusb302Registers.SetRxEnableKeeps | NOA_ESP32_PD/FUSB302.cpp:622-673 | set_rx_enable makes receive line, AUTO_GCRC and BC_LVL mask follow the flag and leaves the pulls |
| Fusb302Registers.SelectRpKeeps | NOA_ESP32_PD/FUSB302.cpp:323-365 | select_rp_value leaves switches and receiver alone |
| Fusb302Registers.TransmitKeeps | NOA_ESP32_PD/FUSB302.cpp:758-839 | transmit leaves switches and receiver alone |
| Fusb302Registers.MeasuringIsTransparent | NOA_ESP32_PD/FUSB302.cpp:434-445 | get_cc leaves every register but MEASURE and the whole shadow state as they were, for any starting contents; a sink leaves MEASURE alone too |
| Fusb302Registers.SourceMeasuresOneLine | NOA_ESP32_PD/FUSB302.cpp:96-151 | While a source measures, exactly the measured line is connected, and SWITCHES0 is restored afterwards |
| Fusb302Registers.SinkMeasuresBothLines | NOA_ESP32_PD/FUSB302.cpp:173-252 | A sink connects CC1 alone, then CC2 alone, and then restores SWITCHES0 |
| Fusb302Registers.MeasuredKeeps | NOA_ESP32_PD/FUSB302.cpp:153-252 | get_cc keeps the driver coherent and every intermediate write safe |
| Fusb302Registers.SourceReadsTheStandard | NOA_ESP32_PD/usb_pd.h:952-960 | With the thresholds of the selected Rp every voltage of the standard's bands for Ra, Rd and an open line reads as what it stands for |
| Fusb302Registers.SinkReadsTheStandard | NOA_ESP32_PD/FUSB302.cpp:74-94 | The same for a sink and the three currents |
| Fusb302Registers.RpFitsThresholds | NOA_ESP32_PD/FUSB302.cpp:323-365 | select_rp_value sets current source and thresholds together and touches no other bit of CONTROL0 |
| Fusb302Registers.AlertsAreRaised | NOA_ESP32_PD/FUSB302.cpp:359-427 | After init, and after any sequence of calls from there on, no interrupt that the alert acts on is masked, interrupts are enabled, unacknowledged messages are repeated three times and the chip is powered |
| Fusb302Registers.SetMsgHeaderTunes | NOA_ESP32_PD/FUSB302.cpp:603-620 | set_msg_header makes the automatic GoodCRC carry the roles it is given; no other call changes them (SetPolarityStaysTuned and its siblings) |
| Fusb302Registers.TransmitStaysTuned | NOA_ESP32_PD/FUSB302.cpp:758-839 | No transmission changes these roles or leaves BIST mode on |
| Fusb302Fifo.DeliversEveryMessage | NOA_ESP32_PD/FUSB302.cpp:686-745 | On any concatenation of whole packets, repeated calls of get_message deliver exactly the messages that are not GoodCRC, in order |
| Fusb302Fifo.ReadsFirstRealPacket | NOA_ESP32_PD/FUSB302.cpp:707-745 | One call skips every leading GoodCRC, returns the next packet and leaves the FIFO at the following boundary; with none left it fails and empties the FIFO |
| Fusb302Fifo.ReadsOnePacket | NOA_ESP32_PD/FUSB302.cpp:707-735 | A whole packet in front of any bytes is consumed exactly |
| Fusb302Fifo.TransmitReceive | NOA_ESP32_PD/FUSB302.cpp:758-799 | For every header with its objects: interpreting the transmit tokens and reading the result with get_message gives back the same message and leaves what follows; a GoodCRC, and only that, is passed over |
| Fusb302Fifo.EmitsSop | NOA_ESP32_PD/FUSB302.cpp:786-799 | The tokens put SOP, header, objects, CRC and EOP on the wire, and nothing else |
| Fusb302Fifo.FrameLength | NOA_ESP32_PD/FUSB302.cpp:271-321 | A frame is 12+4n bytes, at most 40, and the marker's five low bits give 2+4n |
| Fusb302Fifo.PayloadRoundTrip | NOA_ESP32_PD/FUSB302.cpp:298-300 | The objects are read back from their bytes in memory |
| Fusb302Fifo.MarkerIsOr | NOA_ESP32_PD/FUSB302.cpp:284-285 | The marker byte of every frame is the token `|` the length's low five bits |
| Fusb302Chip.Fusb302.constructor | NOA_ESP32_PD/FUSB302.cpp:22-30 | A chip at power-on |
| Fusb302Chip.Fusb302.SetPolarity | NOA_ESP32_PD/FUSB302.cpp:520-569 | Registers, shadow state and every write to SWITCHES0 are those of the call that SetPolarityKeeps shows safe |
| Fusb302Chip.Fusb302.SetVconn | NOA_ESP32_PD/FUSB302.cpp:571-601 | The same for the call of SetVconnKeeps, which passes through set_polarity |
| Fusb302Chip.Fusb302.SetMsgHeader | NOA_ESP32_PD/FUSB302.cpp:603-620 | The same for the call of SetMsgHeaderKeeps |
| Fusb302Chip.Fusb302.SetCc | NOA_ESP32_PD/FUSB302.cpp:447-518 | The same for the call of SetCcKeeps; Ra is refused and changes nothing |
| Fusb302Chip.Fusb302.AutoGoodCrcEnable | NOA_ESP32_PD/FUSB302.cpp:57-71 | Sets or clears AUTO_GCRC alone |
| Fusb302Chip.Fusb302.SetRxEnable | NOA_ESP32_PD/FUSB302.cpp:622-673 | The same for the call of SetRxEnableKeeps; fails without touching a register while the polarity is unknown; enabling empties the receive FIFO |
| Fusb302Chip.Fusb302.SelectRpValue | NOA_ESP32_PD/FUSB302.cpp:323-365 | The same for the call of SelectRpKeeps |
| Fusb302Chip.Fusb302.Init | NOA_ESP32_PD/FUSB302.cpp:367-427 | The same for the call of InitKeeps |
| Fusb302Chip.Fusb302.MeasurePinSource | NOA_ESP32_PD/FUSB302.cpp:96-151 | The write sequence of SourceMeasuresOneLine; for any voltage of the line the reading is Open exactly above the first threshold, Rd exactly between the two, and Ra exactly below, by a comparator that answers for the connected line and the threshold then in MEASURE |
| Fusb302Chip.Fusb302.DetectPinSource | NOA_ESP32_PD/FUSB302.cpp:153-170 | With VCONN on only the CC line is measured and the other reading keeps the caller's value; every line measured reads as its voltage says |
| Fusb302Chip.Fusb302.DetectPinSink | NOA_ESP32_PD/FUSB302.cpp:173-252 | The write sequence of SinkMeasuresBothLines; each line reads as its own voltage says: open below 200 mV, then the three currents in order |
| Fusb302Chip.Fusb302.GetCc | NOA_ESP32_PD/FUSB302.cpp:434-445 | Readings that follow from the voltages of the lines actually measured, and the register effect that MeasuringIsTransparent bounds |
| Fusb302Chip.Fusb302.ReadFifo | NOA_ESP32_PD/FUSB302.cpp:707-730 | The buffer's front is the FIFO's front, byte by byte |
| Fusb302Chip.Fusb302.ReadPacket | NOA_ESP32_PD/FUSB302.cpp:709-735 | One round of the loop consumes one packet; header and body fit the buffer of 32 bytes for every header |
| Fusb302Chip.Fusb302.GetMessage | NOA_ESP32_PD/FUSB302.cpp:686-756 | The do-while loop terminates on any contents and computes the first message that is not a GoodCRC |
| Fusb302Chip.Fusb302.CopyPayload | NOA_ESP32_PD/FUSB302.cpp:298-300 | The bytes of all words follow the buffer's front in memory order |
| Fusb302Chip.Fusb302.SendMessage | NOA_ESP32_PD/FUSB302.cpp:271-321 | Completes the frame in place and hands over exactly it |
| Fusb302Chip.Fusb302.TransmitSop | NOA_ESP32_PD/FUSB302.cpp:758-799 | Hands over the 12+4n bytes of the frame, within the buffer of 40 |
| Fusb302Chip.Fusb302.TransmitSignal | NOA_ESP32_PD/FUSB302.cpp:800-839 | Exactly the signal asked for goes out, and nothing with it |
| PdPortObject.PdPort.constructor | NOA_ESP32_PD/usb_pd_protocol.cpp:2049-2130 | Leaves the port in the initial state, sound and within the rules of the power path, and the chip coherent with it, silent and presenting Rd |
| PdPortObject.PdPort.RunStateMachine | NOA_ESP32_PD/usb_pd_protocol.cpp:2132-3427 | One pass, done in place on the message the chip delivers, is exactly the pass all theorems are about; what the chip transmits in it is, one by one, the messages and signals the pass sends; it keeps the chip coherent with the port, the invariant of all runs and, unless harmful, the rules of the power path; of the receive FIFO exactly what follows the message remains, dropped only on attaching |
| PdPortObject.PdPort.BeforeSwitch | NOA_ESP32_PD/usb_pd_protocol.cpp:2132-2217 | Everything up to the switch, in place; the message comes from the FIFO as it was when the pass began, although a failed board check may silence the receiver first |
| PdPortObject.PdPort.RunSwitch | NOA_ESP32_PD/usb_pd_protocol.cpp:2223-3357 | The switch in place; afterwards last_state is the state it was entered with, and whatever the state, the full invariant holds again if the weaker one held in the middle of the pass |
| PdPortObject.PdPort.HandleState | NOA_ESP32_PD/usb_pd_protocol.cpp:2225-3355 | Every state reaches its own case in place, unknown ones none |
| PdPortObject.PdPort.SetState | NOA_ESP32_PD/usb_pd_protocol.cpp:326-425 | In place: always stops the timer; a change to a disconnected state that is no toggle clears the limit, cuts a source's supply and silences the chip itself |
| PdPortObject.PdPort.TransmitPacket | NOA_ESP32_PD/usb_pd_protocol.cpp:456-541 | Puts the encoded message's frame into the FIFO and returns the status of the last alert |
| PdPortObject.PdPort.SendControl | NOA_ESP32_PD/usb_pd_protocol.cpp:572-584 | The one burst written to the transmit FIFO is the frame of the message recorded as sent, which carries the port's roles and counter, and 0 for a Soft_Reset |
| PdPortObject.PdPort.SendSourceCap | NOA_ESP32_PD/usb_pd_protocol.cpp:586-614 | The one burst written is the frame of the offer with all objects, or of Reject without any |
| PdPortObject.PdPort.SendSinkCap | NOA_ESP32_PD/usb_pd_protocol.cpp:771-782 | The one burst written is the frame with the sink's objects, or of an empty message that reads as Reject |
| PdPortObject.PdPort.VdmSendStateMachine | NOA_ESP32_PD/usb_pd_protocol.cpp:1633-1686 | Sends only while ready, retries after busy, gives up on time |
| PdPortObject.PdPort.ExecuteHardReset | NOA_ESP32_PD/usb_pd_protocol.cpp:879-930 | In place: whatever the state, afterwards a sink draws nothing, a source supplies nothing, an interrupted swap is undone, and the counter is 0 |
| PdPortObject.PdPort.ExecuteSoftReset | NOA_ESP32_PD/usb_pd_protocol.cpp:932-938 | In place: discovery of the role, counter 0, no timer |
| PdPortObject.PdPort.RequestSoftReset | NOA_ESP32_PD/usb_pd_protocol.cpp:940-950 | In place: a detached port ignores it; keeps the invariant of all runs, and the rules of the power path exactly if not called in the last stages of a swap |
| PdPortObject.PdPort.SendRequest | NOA_ESP32_PD/usb_pd_protocol.cpp:957-1019 | In place: what is remembered as limit is what the request asks for; the voltage last asked for is not asked for again unless forced |
| PdPortObject.PdPort.HandleSourceCap | NOA_ESP32_PD/usb_pd_protocol.cpp:1087-1118 | In place: the request answered with is built from the table just stored |
| PdPortObject.PdPort.HandlePowerRequest | NOA_ESP32_PD/usb_pd_protocol.cpp:1120-1163 | In place: the judgement of RequestIsJudged, with Accept or Reject written to the chip and the port's state changed accordingly |
| PdPortObject.PdPort.HandleBist | NOA_ESP32_PD/usb_pd_protocol.cpp:1164-1180 | Mode 2 in the ready state ends the connection |
| PdPortObject.PdPort.HandleSinkCap | NOA_ESP32_PD/usb_pd_protocol.cpp:1181-1187 | Remembers the answer and returns to SRC_READY |
| PdPortObject.PdPort.HandleDataRequest | NOA_ESP32_PD/usb_pd_protocol.cpp:1079-1198 | Every data message in place, as DataKeeps and MessageRules cover it |
| PdPortObject.PdPort.RequestPowerSwap | NOA_ESP32_PD/usb_pd_protocol.cpp:1201-1209 | In place: swaps start from the ready states only; keeps the invariant of all runs and the rules of the power path |
| PdPortObject.PdPort.RequestDataSwap | NOA_ESP32_PD/usb_pd_protocol.cpp:1235-1243 | In place: from the ready state of the role only; keeps both |
| PdPortObject.PdPort.SwapDataRole | NOA_ESP32_PD/usb_pd_protocol.cpp:1270-1274 | Flips the data role, on the chip too, and asks for identity |
| PdPortObject.PdPort.HandleGetSourceCap | NOA_ESP32_PD/usb_pd_protocol.cpp:1289-1294 | In place: an acknowledged offer takes a discovering source, and only that, to negotiation |
| PdPortObject.PdPort.HandlePsRdy | NOA_ESP32_PD/usb_pd_protocol.cpp:1320-1354 | In place: of its five meanings by state only the contract's applies a limit, the one of the last request; in SNK_DISCOVERY it forces a hard reset |
| PdPortObject.PdPort.HandleRefusal | NOA_ESP32_PD/usb_pd_protocol.cpp:1356-1417 | In place: back to the ready state of the role; without a contract a refused request restarts discovery, with one Wait schedules another attempt |
| PdPortObject.PdPort.HandleAccept | NOA_ESP32_PD/usb_pd_protocol.cpp:1418-1453 | In place: a contract begins only from SNK_REQUESTED and ends with an accepted swap |
| PdPortObject.PdPort.HandleSoftReset | NOA_ESP32_PD/usb_pd_protocol.cpp:1454-1458 | Restarts first, then accepts with counter 0 |
| PdPortObject.PdPort.HandlePrSwap | NOA_ESP32_PD/usb_pd_protocol.cpp:1459-1478 | In place: the answer of PrSwapIsAnswered, written to the chip |
| PdPortObject.PdPort.HandleDrSwap | NOA_ESP32_PD/usb_pd_protocol.cpp:1479-1493 | Swaps only if the Accept went out |
| PdPortObject.PdPort.HandleCtrlRequest | NOA_ESP32_PD/usb_pd_protocol.cpp:1276-1516 | Every control message in place, as ControlKeeps and MessageRules cover it |
| PdPortObject.PdPort.HandleRequest | NOA_ESP32_PD/usb_pd_protocol.cpp:1538-1571 | In place: changes nothing while not connected, so DetachedIgnoresExactly applies |
| PdPortObject.PdPort.RequestSourceVoltage | NOA_ESP32_PD/usb_pd_protocol.cpp:3642-3658 | Renegotiates from two states; from all others becomes a detached sink without cutting VBUS, which breaks the rules of the power path exactly if VBUS was driven; keeps the invariant of all runs |
| PdPortObject.PdPort.SrcDisconnectedCase | NOA_ESP32_PD/usb_pd_protocol.cpp:2229-2288 | In place: goes to debouncing only on a sign of a sink; a toggle changes role, state and Rd together, so that the power path stays safe |
| PdPortObject.PdPort.SrcDebounceCase | NOA_ESP32_PD/usb_pd_protocol.cpp:2289-2369 | In place; on attaching, receiver and transmitter of the chip are on the line that shows Rd, whichever line the port was on before |
| PdPortObject.PdPort.SrcHardResetRecoverCase | NOA_ESP32_PD/usb_pd_protocol.cpp:2370-2394 | In place: the supply stays off until the recovery time has passed |
| PdPortObject.PdPort.SrcDiscoveryCase | NOA_ESP32_PD/usb_pd_protocol.cpp:2424-2459 | In place: at most PD_CAPS_COUNT unacknowledged offers; an acknowledged one is what TwoPortsAgree calls an offer on its way |
| PdPortObject.PdPort.SrcTransitionCase | NOA_ESP32_PD/usb_pd_protocol.cpp:2488-2499 | In place: PS_RDY only with the accepted position supplied; an unacknowledged one cuts the power |
| PdPortObject.PdPort.SrcReadyCase | NOA_ESP32_PD/usb_pd_protocol.cpp:2500-2575 | In place: a waiting VDM exchange blocks everything; a changed offer comes first and keeps both ports in step |
| PdPortObject.PdPort.SendSwapRequest | NOA_ESP32_PD/usb_pd_protocol.cpp:2583-2627 | In place, for the three swap requests: sent once per entry, with a timer back to a ready state of the same role |
| PdPortObject.PdPort.SrcSwapStandbyCase | NOA_ESP32_PD/usb_pd_protocol.cpp:2646-2666 | In place: Rd and role SINK come together, after PS_RDY went out; otherwise the port detaches with the supply off |
| PdPortObject.PdPort.SnkDisconnectedCase | NOA_ESP32_PD/usb_pd_protocol.cpp:2701-2764 | In place: goes to debouncing on any non-open line with the classification cleared; a toggle changes role, state and Rp together |
| PdPortObject.PdPort.SnkDebounceCase | NOA_ESP32_PD/usb_pd_protocol.cpp:2765-2845 | In place; on attaching, receiver and transmitter of the chip are on a line with Rp, the one with the higher current if both carry it |
| PdPortObject.PdPort.SnkHardResetRecoverCase | NOA_ESP32_PD/usb_pd_protocol.cpp:2846-2905 | In place: a further hard reset is scheduled only while hard_reset_count leaves one; leaving early takes VBUS falling and rising |
| PdPortObject.PdPort.SnkReadyCase | NOA_ESP32_PD/usb_pd_protocol.cpp:2993-3039 | In place: asks again only for a changed voltage, with a request the offer grants; a waiting VDM exchange blocks everything |
| PdPortObject.PdPort.SnkSwapSnkDisableCase | NOA_ESP32_PD/usb_pd_protocol.cpp:3062-3073 | In place: the limit is zero before the source is asked to switch off |
| PdPortObject.PdPort.SnkSwapStandbyCase | NOA_ESP32_PD/usb_pd_protocol.cpp:3082-3101 | In place: Rp before VBUS, both only inside the swap window of PowerPathIsSafe; a failed supply restores Rd |
| PdPortObject.PdPort.SnkSwapCompleteCase | NOA_ESP32_PD/usb_pd_protocol.cpp:3102-3122 | In place: either a source with Rp, VBUS and counter 0, or a detached sink with Rd and VBUS off |
| PdPortObject.PdPort.SoftResetCase | NOA_ESP32_PD/usb_pd_protocol.cpp:3192-3211 | In place: counter 0 before the message, as its type demands; then a timer or a hard reset |
| PdPortObject.PdPort.HardResetSendCase | NOA_ESP32_PD/usb_pd_protocol.cpp:3212-3259 | In place: every visit is counted, and the signal is repeated until acknowledged |
| PdPortObject.PdPort.HardResetExecuteCase | NOA_ESP32_PD/usb_pd_protocol.cpp:3260-3273 | In place: restores Rd after an interrupted swap and ends in the recovery state of the role |
| PdPortObject.PdPort.CheckTimeout | NOA_ESP32_PD/usb_pd_protocol.cpp:3363-3372 | In place: no surviving timer has reached its deadline |
| PdPortObject.PdPort.CheckDisconnect | NOA_ESP32_PD/usb_pd_protocol.cpp:3374-3427 | In place: leaves only detached ports silent, and none that is swapping |
| PdPortObject.PdPort.Alert | NOA_ESP32_PD/FUSB302.cpp:851-917 | msg_id moves by one for a success and one for a hard reset sent, or is zeroed by one received; the last message counts as delivered exactly if the last of the interrupts set says so, or none is set and it did before; the receive FIFO is emptied exactly by a hard reset sent or received and by a packet while the receiver is off; the chip stays coherent with the port, and the invariant of all runs and the rules of the power path are kept |
| PdPortObject.SilentChip | NOA_ESP32_PD/FUSB302.cpp:622-673 | Across both layers: in a detached state of a sound port the chip's AUTO_GCRC is clear; the constructor makes a port sound, and pass, alert and every call of the application keep it so |
| Sketch.Serve | NOA_ESP32_PD/NOA_ESP32_PD.ino:21-95 | From power-on and initialisation, after any number of turns of the loop on non-decreasing clock readings, with any alerts and any calls of the application between them: the port satisfies the invariant of all runs on a chip that is coherent with it, and while it is detached the chip neither acknowledges nor listens |
| Sketch.RunLoop | NOA_ESP32_PD/NOA_ESP32_PD.ino:59-95 | One turn, alert first if the interrupt line is low, keeps this |
| PdPortObject.ChipPresentsRole | NOA_ESP32_PD/FUSB302.cpp:447-518 | Across both layers: in an unharmed run the chip presents exactly Rp for a source and exactly Rd, with VBUS off, for a sink outside the last stages of a swap; VCONN is never on |
| PdPortObject.ListensOnItsLine | NOA_ESP32_PD/FUSB302.cpp:520-620 | Across both layers: whenever the receiver is on, receive line and transmit line of the chip are the line the port has chosen, and GoodCRC carries the roles it was given last |

## Left out

- Compiled-out code: Revision 3.0, VCONN swap, Try.SRC, auto-toggle, alternate modes and SVDM discovery, BBRAM, host and console commands; they are not part of the shipped configuration.
- Branches on VBUS_NEVER_LOW and TRY_SRC: these flags are never set in this build.
- Events of the removed task loop (`evt` stays 0) and `req_suspend_state` (never set).
- The best-object search and voltage cap in `pd_find_pdo_index`, which are disabled: `pd_set_max_voltage` stores a ceiling that nothing reads, although its comment promises a cap, and the model claims no maximum voltage.
- Width of `hard_reset_count`, `caps_count` and `snk_cap_count`: modelled as unbounded.
- Construction of the clock: `millis() * 1000` wraps at 32 bits; the model assumes a clock that does not run backwards.
- The wake-up value `timeout` and the Type-C current bookkeeping (`typec_curr`), which nothing consumes.
- I2C transfers, delays and logging; a register returns what was last written to it, self-clearing bits included, and reading an empty receive FIFO gives zeros.
- The token in front of a received packet, which the code does not check either.
- Readings of get_cc inside PdPort: the port takes them as inputs; that taking them changes nothing but MEASURE is `MeasuringIsTransparent`.
- Repeated initialisation on stale driver state, SUSPENDED beyond its single case, and BIST details.
- Accuracy of EXPLICIT_CONTRACT and the partner flags per connection: they survive a detach in this build.
- The members of struct pd_protocol as separate object fields: `PdPort` keeps them in one record that it reassigns member by member; nothing in the code takes the address of one.
- Replies to vendor-defined messages: both handlers of this build answer nothing.
- Swap requests that cross, and other traffic of the ports during a swap: `PowerSwap` covers ports that are otherwise quiet; what single messages do at any moment is in `PortAnswers` and `MessageRules`.
