# Models of the Bluetooth daemon and the serial link

The Android daemon of BlueZ 5.50 is a set of protocol engines driven by one
event loop: a packet is read, a timer fires, a transport hangs up, the
application calls, or the kernel reports. This project models the engines with
the most state, and the frame parser of the serial link, and proves what they
keep over whole runs.

Each engine appears in two forms. A pure one: a datatype for the state and a
function for every operation, with lemmas about all runs. An imperative one: a
class with the fields of the program, whose methods update them as the program
does, with its loops and early returns; each method is proved to change the
state as the pure function says. Results about runs are therefore results about
the objects.

- `AvdtpSignalling`, `AvdtpCapabilities`: the packets of AVDTP messages and the
  capability lists in them (Bluetooth AVDTP 1.3, sections 8.4 and 8.21).
- `AvdtpRequests`, `AvdtpSession`, `AvdtpEvents`: pending requests, end points,
  streams and discovery of one session, and all events it can meet. The
  invariants are part of the types `Requests` and `Session`, so every
  operation is checked to keep them.
- `AvdtpEffects`, `AvdtpAnswers`: what each call, timer, command and reply comes
  to, told in the fields of the session alone: when it is refused, the request or
  answer it makes, the marks and states it changes. `AvdtpServing`: which request
  is sent next, on every event.
- `AvdtpRuns`: what holds after any run. `AvdtpProgress`: what becomes of
  waiting requests. `AvdtpProcedures`, `AvdtpLife`: what a procedure, and a whole
  life of a stream, does to the sessions at both ends. `AvdtpEngine`: the session
  as one object that follows the model event by event.
- `AvrcpContinuation`, `AvrcpAttributes`: a response cut into pieces that the
  peer pulls, and the attribute list it carries (AVRCP 1.5, sections 6.8 and
  6.6.1).
- `AvctpScheduler`: the requests of an AVCTP control channel.
- `DeviceDatabase`: bonded and cached devices and the bond states reported.
- `DiscoveryControl`: inquiry and LE scanning over one kernel scan.
- `AdvertisingInstances`, `Bits`: instance numbers and the word of bits behind
  them.
- `SerialFrames`: the serial frame parser, its checksum and dispatch.

Whether a message is taken by a socket or by the kernel is a parameter: a
function from the number of the message to the answer, or a mark of the event.
A result that does not ask for every message to be taken holds for every pattern
of refusals. Timers and idle sources are flags that an event needs to be set.
Callbacks of users are parameters of the event that calls them. Notifications and
callbacks fired are kept as history.

Where the code does not do what is promised of it, the code is kept, an input
that shows it is given, and the exact condition is proved.

- A fragmented AVDTP message whose rest after the START packet is a multiple of
  the fragment size is announced with one packet too many and lost (`RoundTrip`,
  `FragmentedRun`, `TwoOctetsLost`).
- Text attributes that are empty or contain NUL are not carried faithfully
  (`NothingLost`).
- A change of the supported transports that changes whether the running scan is
  the one of all types puts the STARTED and STOPPED notifications out of turn
  (`InTurnIff`, `StopCanBeMissed`).
- A start command accepted during an LE scan is lost when GATT starts that scan
  once more, or has a stop of it accepted, before it ends; one accepted during
  a BR/EDR or DUAL scan starts nothing, even if that scan was cancelled before
  (`WaitingStart`, `StartCanBeLost`, `StartAfterCancelLost`). A cancel command
  does not take back a start command accepted during an LE scan
  (`CancelChangesNothing`, `CancelCanBeLost`).
- A piece of an AVRCP response that AVCTP refuses is dropped, and the peer can
  complete a message that was never sent (`PeerGoesRight`, `PieceLost`).
- When the socket refuses a DISCOVER while no discovery request is outstanding,
  the session accepts no other discovery until the connection is given up
  (`RefusedDiscovery`, `FreshRefused`).
- The search for an AVCTP label can return one that a kept request still has
  (`LabelTaken`, `NextLabelTaken`, `LabelUsedTwice`).

The table lists of `AvdtpEngine` the methods with a loop or an argument of
their own, and `Handle`, in which all meet; every other handler of `avdtp.c` has
a method named after it, with a contract of the same form. What the functions in
these contracts come to is said by the lemmas whose names end in `Cases` or `Is`,
in every module, without these functions.

In some proofs `Unfold(k)`, a predicate that is always true, keeps the verifier
from looking into an invariant before the proof asks for it.

## Model

| member | source | states |
|---|---|---|
| `AvdtpSignalling.Send` | source/bluez-5.50/android/avdtp.c:465-557 | the packets handed to the socket are those of the message, up to the first one refused, and the answer is success exactly when all were taken |
| `AvdtpSignalling.SendRest` | source/bluez-5.50/android/avdtp.c:527-555 | the loop of the sender: CONTINUE packets and the END packet, up to the first one refused |
| `AvdtpSignalling.PacketsAre` | source/bluez-5.50/android/avdtp.c:465-557 | for every payload and MTU, every packet carries the label and the message type and fits the MTU; there is one SINGLE, or a START, CONTINUE packets and an END, all full but the last, or none when not even a START fits; the signal stands in the first, and the data together are the payload |
| `AvdtpSignalling.Receiver.ParseData` | source/bluez-5.50/android/avdtp.c:1856-1980 | the reassembly buffer and the result change as the pure step function says, for every packet and every buffer state |
| `AvdtpSignalling.Receiver.Take` | source/bluez-5.50/android/avdtp.c:1961-1980 | the part common to all packet types: the size check, the copy, the 8-bit size field, the packet count |
| `AvdtpSignalling.RoundTrip` | source/bluez-5.50/android/avdtp.c:465-557 | for every payload and MTU, a message sent to an idle receiver arrives unchanged, with FRAGMENT for all packets but the last, if and only if it is deliverable: at most 255 octets, and one packet suffices or the rest after START is no multiple of the fragment size |
| `AvdtpSignalling.FragmentedRun` | source/bluez-5.50/android/avdtp.c:489-555 | a fragmented message of at most 255 octets is delivered, or announced as one packet too many and refused at its END packet, exactly when the rest is a multiple of the fragment size |
| `AvdtpSignalling.TwoOctetsLost` | source/bluez-5.50/android/avdtp.c:503-520 | two octets over an MTU of three are refused at the last packet: the promise fails on a concrete input |
| `AvdtpSignalling.CompleteIsShort` | source/bluez-5.50/android/avdtp.c:1961-1968 | no message handed up has more than 255 octets, whatever was sent |
| `AvdtpSignalling.LanguageSound` | source/bluez-5.50/android/avdtp.c:1865-1979 | every run without error divides into whole messages and perhaps an open one, none of which overflows the buffer: within its message, the octets so far modulo 256 and the payload are at most 1024; SUCCESS comes exactly at the end of a message, for one of at most 255 octets with its label, type, signal and payload, and the receiver is active exactly inside one |
| `AvdtpSignalling.LanguageComplete` | source/bluez-5.50/android/avdtp.c:1865-1979 | every such division without overflow is taken without error and answered so |
| `AvdtpSignalling.Language` | source/bluez-5.50/android/avdtp.c:1865-1979 | so the sequences of packets of any sizes taken without error are exactly those that can be divided without overflow |
| `AvdtpCapabilities.CapsToList` | source/bluez-5.50/android/avdtp.c:1120-1160 | the loop returns the capabilities of the longest well-formed prefix, the last proper codec among them (or the one given), and whether delay reporting is among them |
| `AvdtpCapabilities.CodecIs` | source/bluez-5.50/android/avdtp.c:1120-1160 | the codec found is the last capability of that category with at least two octets |
| `AvdtpCapabilities.ParseSerialize` | source/bluez-5.50/android/avdtp.c:1120-1160 | reading a serialised list gives the same list, for every list |
| `AvdtpCapabilities.ParseLongest` | source/bluez-5.50/android/avdtp.c:1120-1160 | on any octets the result is a well-formed prefix, and every list whose octets begin the data is the beginning of the result |
| `AvdtpCapabilities.ConfigurationBody` | source/bluez-5.50/android/avdtp.c:1404-1416 | the body of the GET_CONFIGURATION response is the leading run of stored capabilities that fits 1024 octets |
| `AvdtpCapabilities.ConfigurationRead` | source/bluez-5.50/android/avdtp.c:1404-1416 | the peer reads that body as the run, and the run is the longest one that fits |
| `AvdtpCapabilities.SetConfigurationBody` | source/bluez-5.50/android/avdtp.c:3151-3167 | the request holds both SEIDs and the serialised capabilities |
| `AvdtpCapabilities.SetConfigurationTransfer` | source/bluez-5.50/android/avdtp.c:3157-3177 | from end to end: built, cut into packets, reassembled and parsed, the SEIDs and capabilities of a deliverable SET_CONFIGURATION are the same |
| `AvdtpRuns.StreamOwnership` | source/bluez-5.50/android/avdtp.c:670-698 | after any run, an end point has a stream iff it is in use iff exactly one member of the stream list points to it; one without a stream is IDLE |
| `AvdtpRuns.NoStaleReference` | source/bluez-5.50/android/avdtp.c:846-929 | a stream that has left the list is targeted by no waiting request, is not the one about to be opened, and belongs to no end point; only a request left behind by a broken connection may still name it |
| `AvdtpRuns.RequestConservation` | source/bluez-5.50/android/avdtp.c:760-844 | every request accepted is at all times in exactly one place: in service, in one of the queues, or freed |
| `AvdtpRuns.TransmittedOnce` | source/bluez-5.50/android/avdtp.c:2359-2393 | no request is handed to the socket twice, and at most one of those handed over is not yet freed |
| `AvdtpRuns.TransmittedInOrder` | source/bluez-5.50/android/avdtp.c:2966-2988 | what was taken from one queue was taken in order of arrival, before everything still in it; labels are consecutive modulo 16 |
| `AvdtpRuns.CallbackOnce` | source/bluez-5.50/android/avdtp.c:931-950 | no callback of a discovery fires twice, on any run |
| `AvdtpRuns.FiredOrPending` | source/bluez-5.50/android/avdtp.c:3029-3053 | after an accepted discover call and any events whatever, either its discovery is the current one or its callback has been fired, once |
| `AvdtpRuns.DiscoveryCompletes` | source/bluez-5.50/android/avdtp.c:3029-3053 | a discovery begun with no discovery request outstanding, after any events in which none of its requests is refused by the socket, times out or is answered by anything but an accept, and the connection lasts: its callback has been fired, once, unless its idle source is scheduled or one of its requests is unanswered, whatever else is queued |
| `AvdtpRuns.LastReplyFires` | source/bluez-5.50/android/avdtp.c:2629-2658 | after such events, while the discovery is the current one, one more such event fires its callback if and only if it is the idle source that was scheduled, or the accepted reply to a discovery request after which none is unanswered |
| `AvdtpRuns.SpoiledOnlyBy` | source/bluez-5.50/android/avdtp.c:2248-2348 | a discovery on its course is thrown off it only in a step in which the socket refuses one of its requests, one times out or is answered by anything but an accept, or the connection is lost |
| `AvdtpRuns.StallsOnlyBy` | source/bluez-5.50/android/avdtp.c:2966-2988 | requests come to wait with none in service only if one that was taken from a queue is refused, the stream of the request in service goes, or the connection is given up |
| `AvdtpRuns.StallEndsBy` | source/bluez-5.50/android/avdtp.c:2359-2393 | and then only a request made afresh comes into service; until one does, what waits goes on waiting, but for the requests of a stream that goes |
| `AvdtpProgress.AnswerShrinks` | source/bluez-5.50/android/avdtp.c:2045-2111 | when every message is taken, an accepted reply to any request frees it, puts the next one in service, breaks nothing, and leaves less to answer, whatever requests it gives rise to |
| `AvdtpProgress.Drains` | source/bluez-5.50/android/avdtp.c:2966-2988 | so as many accepted replies as the requests can take, counting the capability requests of a DISCOVER and the delay report of a configuration, leave none waiting or in service, and every request made is freed |
| `AvdtpProgress.RefusedDiscovery` | source/bluez-5.50/android/avdtp.c:3029-3053 | after a discover call whose DISCOVER the socket refused, with no discovery request outstanding: until the connection is given up every call is refused, no callback is fired and no reply concerns a discovery; the loss of the connection, and nothing else, ends this |
| `AvdtpProgress.FreshRefused` | source/bluez-5.50/android/avdtp.c:3029-3053 | a new session whose first message the socket refuses is in that case |
| `AvdtpProcedures.ConfigureProcedure` | source/bluez-5.50/android/avdtp.c:1292-1375 | SET_CONFIGURATION between two sessions: both end points are CONFIGURED after, each with a stream that names the other |
| `AvdtpProcedures.OpenProcedure` | source/bluez-5.50/android/avdtp.c:1498-1546 | OPEN and the transport: both end points are OPEN after, connected and watched, and nothing is left pending |
| `AvdtpProcedures.StartProcedure` | source/bluez-5.50/android/avdtp.c:1548-1606 | START: both end points are STREAMING after, with nothing under way |
| `AvdtpProcedures.SuspendProcedure` | source/bluez-5.50/android/avdtp.c:1659-1714 | SUSPEND: both end points are OPEN after, with nothing under way |
| `AvdtpProcedures.CloseProcedure` | source/bluez-5.50/android/avdtp.c:1608-1657 | CLOSE: both are CLOSING, and when the transport is gone both streams are gone and both end points idle and free |
| `AvdtpProcedures.AbortProcedure` | source/bluez-5.50/android/avdtp.c:1716-1744 | ABORT: the initiator's stream is gone with the reply, the other one with the transport; both end points are idle and free |
| `AvdtpLife.WholeLife` | source/bluez-5.50/android/avdtp.c:1263-1714 | from two free end points: configured, opened, started and suspended any number of times, started and closed, each command being the one for the request that was sent, the ends agree after every procedure with nothing under way, and both streams are gone when the transports are |
| `AvdtpServing.PriorityFirst` | source/bluez-5.50/android/avdtp.c:2966-2988 | on every event of every session, what is sent from the queues is sent in turn: one request at most, the head of the priority queue if one that waited there is left, and the head of the other queue only if none waits there |
| `AvdtpServing.NextServed` | source/bluez-5.50/android/avdtp.c:2045-2111 | after any reply to the request in service that does not break the connection: it is freed, and the head of what waits with priority (what waited, then what the reply led to) is sent, else the head of the other queue, with the label of the counter; nothing is sent if none waits |
| `AvdtpEffects.OpenCases` | source/bluez-5.50/android/avdtp.c:3194-3209 | an open call is taken in IDLE and CONFIGURED only, and makes one OPEN request; nothing else changes |
| `AvdtpEffects.StartCases` | source/bluez-5.50/android/avdtp.c:3226-3271 | a start call is taken in OPEN only: an acceptor waits for the peer, with one timer; otherwise it makes one START request and marks the stream, unless that is closing, starting or being aborted |
| `AvdtpEffects.SuspendCases` | source/bluez-5.50/android/avdtp.c:3305-3320 | a suspend call is taken from STREAMING on, unless the stream is closing, and makes one SUSPEND request |
| `AvdtpEffects.CloseCases` | source/bluez-5.50/android/avdtp.c:3273-3303 | a close call is taken once; before OPEN, and at once if the request in service is about the stream, it aborts; otherwise it makes one CLOSE request and marks the stream |
| `AvdtpEffects.AbortCases` | source/bluez-5.50/android/avdtp.c:3322-3346 | an abort call is taken in every state but ABORTING: it gives up the request in service if that is about the stream, and otherwise makes one ABORT request with priority and marks the stream |
| `AvdtpEffects.DelayReportCases` | source/bluez-5.50/android/avdtp.c:3348-3371 | a delay report is requested, with priority, in CONFIGURED and STREAMING, if the stream reports delays and the version is 1.3 at least |
| `AvdtpEffects.ConfigureCases` | source/bluez-5.50/android/avdtp.c:3122-3192 | a configuration makes one SET_CONFIGURATION request, and if that is taken a new stream on the end point |
| `AvdtpEffects.TransportCases` | source/bluez-5.50/android/avdtp.c:2924-2942 | a transport is taken only for the stream that waits for it and if its socket can be set up; then the stream is OPEN, connected and watched, with no timer and nothing pending |
| `AvdtpEffects.DiscoverCases` | source/bluez-5.50/android/avdtp.c:3029-3053 | a discover call is refused while one is under way, waits for the idle source when end points are known, and otherwise makes one DISCOVER request |
| `AvdtpEffects.UnregisterCases` | source/bluez-5.50/android/avdtp.c:3414-3430 | an end point goes, and its stream before it |
| `AvdtpEffects.TimeoutCases` | source/bluez-5.50/android/avdtp.c:2248-2348 | a request that times out is freed; the connection is given up if it names no stream, if it was a SET_CONFIGURATION, GET_CAPABILITIES or ABORT, or if the ABORT that is sent instead is not taken; otherwise the stream is marked as being aborted |
| `AvdtpEffects.LossIs` | source/bluez-5.50/android/avdtp.c:1015-1030 | when the connection is given up every stream goes, every end point is idle and free, no request is about a stream but one whose reply is being handled and an ABORT that has lost its stream, and the discovery is over |
| `AvdtpEffects.ReadFailedCases` | source/bluez-5.50/android/avdtp.c:1982-2026 | after a failed read the same holds, and nothing is read any more |
| `AvdtpEffects.IdledGone` | source/bluez-5.50/android/avdtp.c:846-929 | an end point that becomes idle loses its stream: the object, its place in the list, the requests about it that wait or are unanswered, and the transport awaited for it |
| `AvdtpEffects.OpenTimeoutCases` | source/bluez-5.50/android/avdtp.c:599-612 | a peer that does not connect in time: the stream waits no longer and is aborted |
| `AvdtpEffects.CloseTimeoutCases` | source/bluez-5.50/android/avdtp.c:586-597 | a peer that does not disconnect in time: the transport is closed |
| `AvdtpEffects.StartTimeoutCases` | source/bluez-5.50/android/avdtp.c:3211-3224 | a peer that does not start in time: this side starts, and the timer is gone |
| `AvdtpEffects.HangupCases` | source/bluez-5.50/android/avdtp.c:700-719 | a transport that is gone is watched no longer, is closed unless invalid, and takes the stream with it unless this side aborts it |
| `AvdtpAnswers.EnterIs` | source/bluez-5.50/android/avdtp.c:846-929 | what a change of state does: the marks it clears, the delay report of a sink that is configured, and nothing else |
| `AvdtpAnswers.CollideIs` | source/bluez-5.50/android/avdtp.c:1435-1496 | the request in service is marked exactly if it is an OPEN, START, SUSPEND or CLOSE of the same SEID, and the command is the same or an ABORT |
| `AvdtpAnswers.CommandCases` | source/bluez-5.50/android/avdtp.c:2027-2043 | a command that fails breaks the connection; one that collided frees the request in service, and the next one is sent |
| `AvdtpAnswers.RefusedCases` | source/bluez-5.50/android/avdtp.c:1263-1744 | a command too short fails; one about an end point that is missing, has no stream, is in the wrong state or whose user refuses is answered with one reject and changes nothing; an ABORT of no stream is not answered |
| `AvdtpAnswers.ConfigureItCases` | source/bluez-5.50/android/avdtp.c:1263-1375 | SET_CONFIGURATION of a free end point: one accept or reject as its user decides, and a CONFIGURED stream exactly if an accept was sent |
| `AvdtpAnswers.OpenItCases` | source/bluez-5.50/android/avdtp.c:1498-1546 | OPEN: one accept, and if it was sent the end point's stream waits for its transport with a timer |
| `AvdtpAnswers.EachCases` | source/bluez-5.50/android/avdtp.c:1548-1714 | START and SUSPEND: end point by end point up to the first that is not there, in the wrong state or refused by its user, then one answer, an accept exactly if there was none such |
| `AvdtpAnswers.CloseItCases` | source/bluez-5.50/android/avdtp.c:1608-1657 | CLOSE: the end point is CLOSING, one accept, and a timer if it was sent |
| `AvdtpAnswers.AbortItCases` | source/bluez-5.50/android/avdtp.c:1716-1744 | ABORT: one accept, and if it was sent the end point is ABORTING |
| `AvdtpAnswers.OtherReplyCases` | source/bluez-5.50/android/avdtp.c:2045-2070 | a reply with another label or signal than the request in service changes nothing |
| `AvdtpAnswers.AcceptCases` | source/bluez-5.50/android/avdtp.c:2660-2698 | an accepted request about a stream: each signal puts the end point in its state, OPEN makes the stream wait for its transport, CLOSE closes it, ABORT ends the stream; then the next request is sent |
| `AvdtpAnswers.RejectCases` | source/bluez-5.50/android/avdtp.c:2743-2859 | a reject that cannot be read, or of an ABORT, breaks the connection; one of a START or CLOSE takes the mark back if the user hears of it; one of a discovery request ends the discovery |
| `AvdtpAnswers.EmptyReplyCases` | source/bluez-5.50/android/avdtp.c:2090-2111 | a general reject or a reply of unknown type only frees the request and sends the next one |
| `AvdtpAnswers.CapsCases` | source/bluez-5.50/android/avdtp.c:2629-2658 | an accepted capability reply ends the discovery unless the request to be sent next asks for capabilities; one that cannot be read breaks the connection |
| `AvdtpAnswers.DiscoverReplyCases` | source/bluez-5.50/android/avdtp.c:2424-2477 | after an accepted DISCOVER the priority queue has grown by one capability request, in order, for each listed end point that is known, free or the remote of an own stream, and by nothing else; the signal is GET_ALL_CAPABILITIES exactly from version 1.3 on; these end points are known then; with none the discovery is over |
| `AvdtpEngine.Avdtp.SendReq` | source/bluez-5.50/android/avdtp.c:2359-2393 | queues while a request is in service, else labels, sends and arms, or frees |
| `AvdtpEngine.Avdtp.Process` | source/bluez-5.50/android/avdtp.c:2966-2988 | the head of the priority queue, or else of the other one, is sent when nothing is in service |
| `AvdtpEngine.Avdtp.Unlink` | source/bluez-5.50/android/avdtp.c:760-778 | the loop that finds and unlinks leaves exactly the requests of other streams, in their order |
| `AvdtpEngine.Avdtp.CleanupQueue` | source/bluez-5.50/android/avdtp.c:760-778 | both queues lose exactly the requests of the stream, which are freed |
| `AvdtpEngine.Avdtp.HandleUnanswered` | source/bluez-5.50/android/avdtp.c:780-844 | the request in service is freed, kept if its reply is being handled, and loses its stream if it is an ABORT |
| `AvdtpEngine.Avdtp.MakeIdle` | source/bluez-5.50/android/avdtp.c:846-929 | the session after an end point has become IDLE |
| `AvdtpEngine.Avdtp.SepSetState` | source/bluez-5.50/android/avdtp.c:846-929 | the session after any change of state |
| `AvdtpEngine.Avdtp.ReleaseStreams` | source/bluez-5.50/android/avdtp.c:952-962 | every stream is released, the list is empty |
| `AvdtpEngine.Avdtp.FindStream` | source/bluez-5.50/android/avdtp.c:641-654 | the first stream with the remote SEID |
| `AvdtpEngine.Avdtp.Cancel` | source/bluez-5.50/android/avdtp.c:2248-2348 | the request in service is given up and its stream aborted, or the connection given up |
| `AvdtpEngine.Avdtp.StartCmd` | source/bluez-5.50/android/avdtp.c:1548-1606 | the same for START, end point by end point up to the first refused |
| `AvdtpEngine.Avdtp.SuspendCmd` | source/bluez-5.50/android/avdtp.c:1659-1714 | the same for SUSPEND, end point by end point |
| `AvdtpEngine.Avdtp.AskEach` | source/bluez-5.50/android/avdtp.c:2424-2477 | the loop over the listed end points asks for the capabilities of exactly those that are known, free, or used by this session |
| `AvdtpEngine.Avdtp.DiscoverResp` | source/bluez-5.50/android/avdtp.c:2424-2477 | the session after a DISCOVER response |
| `AvdtpEngine.Avdtp.CapsResp` | source/bluez-5.50/android/avdtp.c:2629-2658 | the session after a capability response: discovery ends unless the next request asks for more |
| `AvdtpEngine.Avdtp.ReadReply` | source/bluez-5.50/android/avdtp.c:2045-2111 | a reply is matched by label and signal, handled, and the next request sent |
| `AvdtpEngine.Avdtp.Handle` | source/bluez-5.50/android/avdtp.c:1982-2111 | for every event, the object changes as the model's step function says |
| `AvdtpEngine.Live` | source/bluez-5.50/android/avdtp.c:2128-2168 | after any sequence of events from a new session the object is in the state of the model's run, so that all results about runs hold of it |
| `AvrcpContinuation.Session.ContinuingNew` | source/bluez-5.50/android/avrcp-lib.c:1050-1089 | what is kept is everything in the vectors behind the offset |
| `AvrcpContinuation.Session.SendInternal` | source/bluez-5.50/android/avrcp-lib.c:1091-1153 | one packet with all that fits, of the right type, and the rest kept; whatever was kept before is dropped |
| `AvrcpContinuation.Session.RequestContinuing` | source/bluez-5.50/android/avrcp-lib.c:1155-1185 | the next piece, or an error and no change |
| `AvrcpContinuation.Session.AbortContinuing` | source/bluez-5.50/android/avrcp-lib.c:1187-1204 | the rest is dropped and the request answered, or an error and no change |
| `AvrcpContinuation.PiecesAre` | source/bluez-5.50/android/avrcp-lib.c:1091-1153 | the pieces concatenate to the body, are max(1, ceil(L / (M - 7))) in number, full but for the last, and typed SINGLE or START CONTINUING* END |
| `AvrcpContinuation.TransferIs` | source/bluez-5.50/android/avrcp-lib.c:1155-1185 | pulling that often hands over all pieces in order and leaves nothing kept |
| `AvrcpContinuation.RestAfter` | source/bluez-5.50/android/avrcp-lib.c:1155-1185 | after n requests exactly the octets that the first n + 1 packets had no room for are kept, and nothing once there are none |
| `AvrcpContinuation.RespondCases` | source/bluez-5.50/android/avrcp-lib.c:1091-1153 | a response hands over what fits, keeps the rest, and drops what was kept |
| `AvrcpContinuation.ContinueCases` | source/bluez-5.50/android/avrcp-lib.c:1155-1185 | a request without exactly one parameter, the PDU of what is kept, is an error and changes nothing; another one takes one packet off what is kept, and is an error if that was not taken |
| `AvrcpContinuation.CancelCases` | source/bluez-5.50/android/avrcp-lib.c:1187-1204 | a request to abort is an error when nothing is kept or it has not one parameter; otherwise what is kept is dropped, whatever the parameter, and an empty response handed over |
| `AvrcpContinuation.CompletesIff` | source/bluez-5.50/android/avrcp-lib.c:1116-1139 | a response completes if and only if a packet has room beyond its header or the body is empty |
| `AvrcpContinuation.PeerGoesRight` | source/bluez-5.50/android/avrcp-lib.c:1091-1204 | on every run of responses, requests and aborts, right and wrong, each packet taken by AVCTP or refused, a peer that hears what was taken goes right (places every piece, joins none to pieces of another message, completes only the message being sent) if and only if no further piece of a message is taken whose first packet was refused, and no last piece after any was refused |
| `AvrcpContinuation.PeerAssembles` | source/bluez-5.50/android/avrcp-lib.c:1091-1204 | under exactly that condition it completes only submitted messages, whole and in order, and while nothing of the current one is missing, what it has of it plus what is kept is that message |
| `AvrcpContinuation.AllTakenAllowed` | source/bluez-5.50/android/avrcp-lib.c:1091-1204 | the condition holds of every run in which AVCTP takes everything |
| `AvrcpContinuation.PieceLost` | source/bluez-5.50/android/avrcp-lib.c:1155-1185 | a run in which the second of three pieces is refused and the peer completes a message nobody submitted |
| `AvrcpAttributes.WriteElementText` | source/bluez-5.50/android/avrcp.c:173-195 | one item is written at its place and nothing else is touched |
| `AvrcpAttributes.ItemLayout` | source/bluez-5.50/android/avrcp.c:173-195 | the octets of an item: identifier in four, 106 in two, length in two, text |
| `AvrcpAttributes.WriteElementAttrs` | source/bluez-5.50/android/avrcp.c:197-216 | the buffer holds the list, and the length is its length |
| `AvrcpAttributes.ParseAttributeList` | source/bluez-5.50/android/avrcp-lib.c:2427-2466 | both arrays are filled with the items read, the rest of them unchanged; an error exactly for too many items or one that is cut short in its text |
| `AvrcpAttributes.ParseElements` | source/bluez-5.50/android/avrcp-lib.c:2474-2491 | the same for a whole body, with the number it announces |
| `AvrcpAttributes.ListRead` | source/bluez-5.50/android/avrcp-lib.c:2427-2491 | a written list of up to seven attributes is read back, but that a text ends at its first NUL and an empty one loses its attribute; a longer list is refused |
| `AvrcpAttributes.CutListRead` | source/bluez-5.50/android/avrcp-lib.c:2436-2455 | a list cut between items, or within an item's header, is accepted with what comes before |
| `AvrcpAttributes.FrontRead` | source/bluez-5.50/android/avrcp-lib.c:2436-2461 | what is read at the front of any octets: identifier and length are big-endian, a text cut short is an error, an empty one leaves no attribute |
| `AvrcpAttributes.TextRead` | source/bluez-5.50/android/avrcp-lib.c:2447-2455 | a text is read up to its first NUL |
| `AvrcpAttributes.NothingLost` | source/bluez-5.50/android/avrcp-lib.c:2447-2455 | nothing is lost if and only if every text is non-empty and free of NUL |
| `AvrcpAttributes.EndToEnd` | source/bluez-5.50/android/avrcp.c:197-216 | written, sent, pulled piece by piece, put together and read, the list is the same under exactly that condition, for every packet size |
| `AvctpScheduler.AvctpChannel.PendingCreate` | source/bluez-5.50/android/avctp.c:1137-1176 | the label the search ends with, and the counter after it |
| `AvctpScheduler.AvctpChannel.SendReq` | source/bluez-5.50/android/avctp.c:1178-1217 | the request joins the queue and the idle source is armed |
| `AvctpScheduler.AvctpChannel.ProcessQueue` | source/bluez-5.50/android/avctp.c:684-710 | requests are freed from the head up to the first the socket takes, which is in flight then |
| `AvctpScheduler.AvctpChannel.ReqTimeout` | source/bluez-5.50/android/avctp.c:647-664 | the request in flight is told and freed, and the idle source armed, whatever its callback submits |
| `AvctpScheduler.AvctpChannel.ControlResponse` | source/bluez-5.50/android/avctp.c:753-800 | the channel after an answer, whatever the callback returns and submits |
| `AvctpScheduler.NeverStalls` | source/bluez-5.50/android/avctp.c:684-710 | in every reachable state an empty slot with a waiting request has the idle source armed, and a request in flight has its timer running |
| `AvctpScheduler.OnePlace` | source/bluez-5.50/android/avctp.c:471-482 | every request is in exactly one place, and freed at most once |
| `AvctpScheduler.SentInOrder` | source/bluez-5.50/android/avctp.c:684-710 | requests are handed over in the order of submission, each once, before all that wait |
| `AvctpScheduler.SubmittedCases` | source/bluez-5.50/android/avctp.c:1178-1217 | a request joins the end of the queue with the label found, the counter goes on behind that, and the idle source is armed |
| `AvctpScheduler.IdleCases` | source/bluez-5.50/android/avctp.c:684-710 | with a request in flight nothing is sent; otherwise the requests are handed over up to the first taken, which is in flight with its timer; those refused are freed |
| `AvctpScheduler.TimerCases` | source/bluez-5.50/android/avctp.c:647-664 | a request that times out is told, if it has a callback, and freed; the slot is empty and the idle source armed; what the callback submits waits in order |
| `AvctpScheduler.AnswerJoins` | source/bluez-5.50/android/avctp.c:753-800 | an answer empties the slot only for its own request, and what the callback that is told submits waits in order |
| `AvctpScheduler.AnswerGoesToFlight` | source/bluez-5.50/android/avctp.c:753-800 | an answer with the label in flight goes to that request only, even if an older one has the same label |
| `AvctpScheduler.OtherAnswer` | source/bluez-5.50/android/avctp.c:776-798 | any other answer is told to the first request kept with that label and to no other; that request is kept on if its callback says so and freed otherwise, and the rest stay; without such a request nothing changes |
| `AvctpScheduler.LabelTaken` | source/bluez-5.50/android/avctp.c:1143-1165 | the search ends with a label that a kept request carries if and only if the counter's label is carried and, with its first carrier dropped, either all labels are still carried, or the label of the head is the first one behind the counter's that no request behind the head carries |
| `AvctpScheduler.LabelFound` | source/bluez-5.50/android/avctp.c:1143-1165 | the label is that of the counter if no kept request has it, and otherwise, with the first that has it left out, the first one on that no request behind the head has |
| `AvctpScheduler.NextLabelTaken` | source/bluez-5.50/android/avctp.c:1137-1176 | after any run the next request gets a label that a kept one carries if and only if that condition holds |
| `AvctpScheduler.LabelUsedTwice` | source/bluez-5.50/android/avctp.c:1137-1176 | a run from label 0 after which two requests carry the label 1, one kept since long and the one submitted last |
| `AvctpScheduler.Drains` | source/bluez-5.50/android/avctp.c:647-710 | from every sound state, with a silent peer and any failing sends, the sources alone serve and free every request within as many turns as there are requests |
| `DeviceDatabase.Devices.FindDevice` | source/bluez-5.50/android/bluetooth.c:378-405 | bonded devices first, then the cache, by either address |
| `DeviceDatabase.Devices.CacheDevice` | source/bluez-5.50/android/bluetooth.c:418-442 | the device is at the front; the last one goes when there are 300 |
| `DeviceDatabase.Devices.GetDevice` | source/bluez-5.50/android/bluetooth.c:474-487 | the device found, or a new one, cached |
| `DeviceDatabase.Devices.UpdateFound` | source/bluez-5.50/android/bluetooth.c:1914-1968 | the lists after a device was seen |
| `DeviceDatabase.Devices.UpdateBredrState` | source/bluez-5.50/android/bluetooth.c:770-805 | the device and the lists after a change over BR/EDR |
| `DeviceDatabase.Devices.UpdateLeState` | source/bluez-5.50/android/bluetooth.c:807-848 | the device and the lists after a change over LE |
| `DeviceDatabase.Devices.UpdateDeviceState` | source/bluez-5.50/android/bluetooth.c:865-910 | the same, with what is reported to the framework |
| `DeviceDatabase.Partitioned` | source/bluez-5.50/android/bluetooth.c:770-848 | after any run every device is in exactly one list, exactly once: the bonded one iff it is paired over some transport |
| `DeviceDatabase.CacheBounded` | source/bluez-5.50/android/bluetooth.c:418-442 | the cache never grows beyond 300, or beyond what it was |
| `DeviceDatabase.BondTrace` | source/bluez-5.50/android/bluetooth.c:850-910 | the bond states reported of a device never repeat, never step between NONE and BONDED, and the last one is its state |
| `DeviceDatabase.ChangedFlags` | source/bluez-5.50/android/bluetooth.c:770-848 | a change of state takes effect: pairing is as told, and over the transport in question the device is paired as told, and bonded if paired and bonded before or now; but not if nothing is new, or if the device was paired and pairing begins or has failed; the other transport and all other devices stay |
| `DeviceDatabase.ChangedLists` | source/bluez-5.50/android/bluetooth.c:770-848 | a device paired over its first transport is the first bonded one, one that is unpaired over its last is at the front of the cache, and otherwise the lists stay |
| `DeviceDatabase.ChangedReports` | source/bluez-5.50/android/bluetooth.c:850-910 | the bond state is reported exactly if it changes, with BONDING before it on the way between NONE and BONDED |
| `DeviceDatabase.Unpaired` | source/bluez-5.50/android/bluetooth.c:865-910 | a device paired over one transport is unpaired when the kernel says so: it goes to the front of the cache, and BONDING and NONE are reported |
| `DeviceDatabase.GetCases` | source/bluez-5.50/android/bluetooth.c:474-487 | a device asked for is the first bonded one with the address as one of its two, else the first cached one, else a new one at the front of the cache |
| `DeviceDatabase.SeenCases` | source/bluez-5.50/android/bluetooth.c:1914-1968 | a device that was seen goes to the front of the cache unless it is paired |
| `DeviceDatabase.LatestSeen` | source/bluez-5.50/android/bluetooth.c:1914-1968 | after any sightings the addresses in the cache are the first 300 different ones of those seen, latest first, without those of bonded devices; the all-zero address, which every cached device matches, counts only while the cache is empty |
| `DiscoveryControl.Controller.Request` | source/bluez-5.50/android/bluetooth.c:1427-1445 | what start_discovery sends and answers, and stop_discovery (lines 3963 to 3983) likewise |
| `DiscoveryControl.Controller.DiscoveringEvent` | source/bluez-5.50/android/bluetooth.c:1451-1514 | the adapter after a kernel event, whatever the callback of GATT does |
| `DiscoveryControl.Controller.LeDiscoveryStop` | source/bluez-5.50/android/bluetooth.c:4166-4187 | the adapter after a stop of the LE scan, with a callback that may call back in |
| `DiscoveryControl.Controller.LeDiscoveryStart` | source/bluez-5.50/android/bluetooth.c:4189-4211 | the adapter after a start of the LE scan |
| `DiscoveryControl.Controller.HandleStart` | source/bluez-5.50/android/bluetooth.c:5166-5204 | the adapter and the status after a start command |
| `DiscoveryControl.Controller.HandleCancel` | source/bluez-5.50/android/bluetooth.c:5206-5251 | the adapter and the status after a cancel command |
| `DiscoveryControl.StartCases` | source/bluez-5.50/android/bluetooth.c:5166-5204 | a start command on an idle powered adapter makes one call, for all types, and succeeds exactly if some type is supported and the kernel takes it; in each other case the calls, the status and what is to follow |
| `DiscoveryControl.CancelCases` | source/bluez-5.50/android/bluetooth.c:5206-5251 | a cancel command, in each case: the calls, the status and what is to follow |
| `DiscoveryControl.StartLeCases` | source/bluez-5.50/android/bluetooth.c:4189-4211 | a start of the LE scan, in each case |
| `DiscoveryControl.StopLeCases` | source/bluez-5.50/android/bluetooth.c:4166-4187 | a stop of the LE scan, in each case |
| `DiscoveryControl.KernelCases` | source/bluez-5.50/android/bluetooth.c:1474-1514 | the start and the end of a scan: the type that runs, the notification, the callback, the scan that follows |
| `DiscoveryControl.EndCases` | source/bluez-5.50/android/bluetooth.c:1474-1514 | the callback does what it does after the end was noted and before the next scan is asked for |
| `DiscoveryControl.NotForgotten` | source/bluez-5.50/android/bluetooth.c:4189-4211 | in every reachable state, while LE scanning is wanted and a scan runs, a scan including LE is expected next: LE itself, if BR/EDR or DUAL runs |
| `DiscoveryControl.LeScanSurvives` | source/bluez-5.50/android/bluetooth.c:1474-1514 | so whenever a scan ends while LE scanning is wanted, a scan including LE is started |
| `DiscoveryControl.CallbackOnce` | source/bluez-5.50/android/bluetooth.c:1502-1506 | a callback given to a stop of the LE scan is called at most once |
| `DiscoveryControl.StepInTurn` | source/bluez-5.50/android/bluetooth.c:1451-1472 | an event leaves the notifications in turn exactly if it is harmless: settings do not change whether the running scan is the one of all supported types, and an adapter without types is not told that no scan has started |
| `DiscoveryControl.InTurnIff` | source/bluez-5.50/android/bluetooth.c:1451-1472 | throughout a run the framework is told STARTED and STOPPED in turn, and last what is the case, if and only if some type was supported at first and every event is harmless where it comes |
| `DiscoveryControl.NotesInTurn` | source/bluez-5.50/android/bluetooth.c:1451-1472 | so it is while the supported types stay the same |
| `DiscoveryControl.StopCanBeMissed` | source/bluez-5.50/android/bluetooth.c:1465-1466 | a run in which they change during discovery and STOPPED is never sent |
| `DiscoveryControl.WaitingStart` | source/bluez-5.50/android/bluetooth.c:5166-5204 | whatever happens from any moment of any scan, of a reachable adapter, until its end is reported: the scan of all types has been started then if and only if it was an LE scan, and since the latest start command that asked the kernel to stop it, the LE scan was neither started once more nor a stop of it accepted; a start command accepted during a BR/EDR or DUAL scan starts nothing |
| `DiscoveryControl.CancelChangesNothing` | source/bluez-5.50/android/bluetooth.c:5206-5251 | a cancel command does not change whether the start command still waits |
| `DiscoveryControl.StartCanBeLost` | source/bluez-5.50/android/bluetooth.c:4189-4211 | a run in which a start command is answered with success during an LE scan and the scan of all types is never asked for |
| `DiscoveryControl.StartAfterCancelLost` | source/bluez-5.50/android/bluetooth.c:5175-5178 | a run in which cancel and then start are answered with success during the scan of all types, and no scan follows |
| `DiscoveryControl.CancelCanBeLost` | source/bluez-5.50/android/bluetooth.c:5206-5251 | a run in which start and then cancel are answered with success during an LE scan, and the scan of all types is started |
| `AdvertisingInstances.Gatt.FindAdvInstance` | source/bluez-5.50/android/gatt.c:5608-5646 | the client's instance, or a new one with the lowest free number |
| `AdvertisingInstances.Gatt.FreeAdvInstance` | source/bluez-5.50/android/gatt.c:657-668 | the instance is gone and its bit clear |
| `AdvertisingInstances.Gatt.DisableAdv` | source/bluez-5.50/android/gatt.c:5883-5928 | the instance awaits its removal, or stays if the kernel could not be asked |
| `AdvertisingInstances.Gatt.RemoveAdvertisingCb` | source/bluez-5.50/android/gatt.c:5866-5881 | a removed instance is freed |
| `AdvertisingInstances.Gatt.DestroyGattApp` | source/bluez-5.50/android/gatt.c:670-697 | the client is gone with its instance |
| `AdvertisingInstances.BitmapAgrees` | source/bluez-5.50/android/gatt.c:657-697 | after any run instances have different numbers from 1 to 32, belong to exactly one client or await removal, and bit i is set iff number i + 1 is in use |
| `AdvertisingInstances.LowestFree` | source/bluez-5.50/android/gatt.c:5627-5637 | a client gets the lowest number not in use, and none iff all 32 are |
| `AdvertisingInstances.NumberReturns` | source/bluez-5.50/android/gatt.c:5866-5881 | a confirmed removal frees its number and no other |
| `AdvertisingInstances.SetupCases` | source/bluez-5.50/android/gatt.c:5608-5646 | setting up gives a client without an instance a new one while a number is free, and changes nothing else |
| `AdvertisingInstances.DisableCases` | source/bluez-5.50/android/gatt.c:5883-5928 | disabling sets one up first if there is none; if the kernel can be asked it awaits removal and is the client's no longer |
| `AdvertisingInstances.RemovalCases` | source/bluez-5.50/android/gatt.c:5866-5881 | a removal that is awaited frees the instance, another one changes nothing |
| `AdvertisingInstances.UnregisterCases` | source/bluez-5.50/android/gatt.c:670-697 | a client goes with its instance and nothing else |
| `SerialFrames.DCComm.RecvMsgParser` | Parser/ChrisHost_DCComm.c:69-98 | the parser's state and result change as the pure step function says |
| `SerialFrames.OctetCases` | Parser/ChrisHost_DCComm.c:69-98 | what one octet comes to in each state, for any length: strays, the stores, the countdown, the completed frame |
| `SerialFrames.DCComm.ChkCSum` | Parser/ChrisHost_DCComm.c:41-59 | true iff debugging is on or the checksum is the sum of the data modulo 256 |
| `SerialFrames.DCComm.RecvStateControl` | Parser/ChrisHost_DCComm.c:107-161 | the result of the dispatch, and the debug switch |
| `SerialFrames.FrameHeard` | Parser/ChrisHost_DCComm.c:69-98 | for every length from 2 to 27 a frame is taken octet by octet with result 0 (strays with -1), stored whole, without a write outside the buffer, and the parser is idle again |
| `SerialFrames.NotBefore` | Parser/ChrisHost_DCComm.c:89-92 | only the last octet completes the frame |
| `SerialFrames.FrameReply` | Parser/ChrisHost_DCComm.c:41-59 | the dispatch of a frame answers -3 iff the checksum differs and debugging is off, otherwise its operation |
| `SerialFrames.StreamHeard` | Parser/ChrisHost_DCComm.c:69-161 | any number of frames, with strays between them, get their replies in order |

## Left out

- AVDTP: one session with its own end points is modelled; the label counter that all sessions share is a parameter.
- AvdtpEngine.Avdtp.Register: the SEID, or that none is left, is given; the table that all sessions share is not part of the model.
- AVDTP: callbacks of end points and applications do not call back into the session, and the session is kept alive by another reference, so that the queue is always processed after a reply.
- AVDTP: an application configures only a free end point for a remote one that was discovered; `avdtp_set_configuration` itself does not check.
- AVDTP: `avdtp_get_configuration` and RECONFIGURE are not modelled; the first does not check that its stream is in the list.
- AVDTP: `avdtp_shutdown`, which walks the list that a failing close may change, and the shutdown of the socket at the end of `avdtp_sep_set_state`.
- AVDTP: a timer that is set while the field still holds another one is one timer in the model.
- AVDTP: the invalid-descriptor condition of the signalling channel, which stops the reading of packets without any other effect.
- AVDTP: the reject of a discovery request calls the callback of the discovery even if none was set, and leaves its idle source scheduled; the model then calls none and clears it. None is set only after a refused DISCOVER, and by `RefusedDiscovery` no such reject follows unless an older discovery request was outstanding.
- AVDTP: confirmation callbacks, error codes, delay values and capability contents kept by remote end points are not part of the session state; the stream links of remote end points are cleared by SEID alone and are left out.
- AVDTP: the type of a reply is the type of the reassembled message, where the code looks at the header of its last packet.
- AVDTP: the GET_CAPABILITIES responder and its check for delay reporting.
- AvrcpContinuation.Session.SendInternal: the cut falls in the last vector; for an earlier one the code sends entries it has not set.
- AVRCP: an MTU below the seven octets of the header, for which the code computes no meaningful length.
- AVRCP: how the MTU of the control channel is computed, and the label, command type and subunit of a packet, which pass through unchanged.
- AVRCP: bodies of more than 65535 octets, whose length field would wrap.
- AvrcpAttributes.WriteElementAttrs: the room for the whole list is a precondition; the code does not check it.
- AVCTP: the browsing channel, which differs in the delay before it is connected; closing a session from a callback; the key-press side of the control channel.
- Devices: names, properties, keys and signature counters, the files, and the addresses shown to the framework.
- Devices: the lists are loaded from files by code that is not modelled; a run starts from any lists that are sound.
- DeviceDatabase.LatestSeen: starts from an empty cache and has sightings only; devices that are fetched or paired in between are covered by the other results.
- Discovery: the name confirmations cancelled by a stop, and the settings other than power and the two transports.
- Advertising: the data, parameters and scan response of an instance, and the confirmation of an added one, which frees nothing.
- SerialFrames.DCComm.RecvMsgParser: octets that would be written outside the buffer are excluded, which is what happens for a length outside 2 to 27.
- SerialFrames.DCComm.ChkCSum: lengths from 2 to 27; for others the code reads outside the buffer.
- SerialFrames.DCComm.RecvStateControl: the same for a completed frame.
- Serial link: reading of the frame from the command line.
- Socket and file input and output, the message channel to the HAL, logging, codec encoders, key injection, SDP records, the user interface and the database scripts.
