# A verified model of the CanoKey USB/IP server

The server is a protocol state machine between three parties. A host sends USBIP_CMD_SUBMIT and
USBIP_CMD_UNLINK over a byte stream. The adapter keeps, for each of four endpoints, a staged packet,
a pending flag, two halt flags, and a parked interrupt request. A device re-enters the adapter through
callbacks while a transfer is running. The project models the connection loop (`Src/usbip.c`) and the
packet adapter (`Src/rust_adapter.inc`), and as a second core the transmit buffer and OUT delivery of
the historical backend in `Src/usbip.c`.

## How the model is built

- `Adapter.dfy` says what each C function does as a function on states (`Model.dfy`). `Server.dfy` is
  the server itself: a class with the C arrays and flags, updated in place by methods that mirror the
  C functions, each proved to take the state exactly where the function on states says. Everything
  else is proved about those functions, so it holds of the class.
- The device is a list with one entry per upcall, each entry any list of callbacks (`Model.Callback`).
  Any finite list is allowed, so a run over an arbitrary list is a finite observation of a run with an
  arbitrary device; when the list ends, the observation ends (`Exhausted`). Theorems about "the state
  a run ends in" are therefore theorems about the state at any upcall or poll of any run. A C `assert`
  that fails ends the run as `Aborted`; a return of -1 ends the connection as `Fatal`.
- A packet that breaks the device contract (too long, or staged on a busy endpoint) aborts in the C
  code and in the model, so no theorem has to assume that part of the contract. Theorems that need the
  endpoint of the current transfer to stay open say so (`Transfers.OpenUntil`), and only for
  the callbacks made until that transfer ends.
- True time is a function from readings to ticks. The code sees each reading modulo 2^32. Theorems
  about time assume that it does not run backwards; any number of readings may share a tick. The bound
  on the IN wait also needs the sleep after an idle turn to move the clock (`Timing.Sleeps`).
- The state logs every upcall, with the number of replies written before it, every arming of the timer,
  and every firing. `Traces.dfy` ties these logs to the callbacks a step uses (`Traces.Used`), so that a
  theorem can put its condition on what the device did during that step, or say what the device was told.
- Laws are stated in the numbers of the source (4096 bytes, 10000 ticks, -104, packet sizes 16, 8 and 64)
  where the number is what the law is about.
- The network is a stream that ends at some point, a number of bytes the peer will accept, and the
  results of the polls. `Sockets.Connection` moves any positive number of bytes in each read and write.
- Each endpoint and each connection carries a history (`Model.Ledger`, `Model.Link`): packets written
  and what became of each, requests read, replies written, requests cancelled. The invariant
  (`Ledgers.Inv`) ties the histories to the flags and buffers; it is kept by every callback and every
  step, and the safety laws below are read off it. `Service.dfy` adds what a run does: commands are
  served, waiting requests answered, and a connection ends for a cause.
- Requests are compared as whole records; the laws that speak of sequence numbers assume that the host
  does not repeat one within a connection.

## Where the code does less than the protocol promises

Each of these is proved, and where the promise holds on some inputs only, so is exactly when.

- USBIP_CMD_UNLINK is answered with -ECONNRESET also for a request that has already been answered,
  because an endpoint remembers its last interrupt request after completing it (and for number 0,
  where it never had one). The comment at `Src/usbip.c:722` refers to a policy that reserves that
  status for pending requests. Status 0 is never wrong. See `Interrupts.UnlinkStatusIsRight` and
  `Interrupts.AnsweredIsReportedReset`.
- A completion pass can leave endpoint 1 with both a parked request and a staged packet, when the
  device stages it while endpoint 2 completes. See `Interrupts.PassSettles`, `Interrupts.PassMayLeaveWork`.
- A control OUT is always reported as successful. That agrees with the device exactly when the
  callbacks it made during the transfer leave neither halt flag of endpoint 0 set; a device that
  refuses the request in its SETUP is overruled. See `Control.ControlOutVerdict` and
  `Control.RefusedOutSucceeds`.
- The one-shot timer misses a deadline that is first polled 2^31 or more ticks late (and less than
  2^32). See `Timing.FiresExactly`.
- Replies always carry direction 0, so their stream can be decoded only by a host that remembers the
  direction of its requests. See `Wire.DirectionIsNeeded`.
- The historical interrupt path sends stale bytes when the host asks for more than is queued. See
  `Legacy.SubmitTakesPrefix`.

## Model

| member | source | states |
|---|---|---|
| Guarantees.EveryRunAnswersOnce | Src/usbip.c:752-779 | In every run with any device, at any moment of any connection whose sequence numbers are distinct, each submit read is in exactly one place: answered, parked, cancelled or being served; and no number has two RET_SUBMITs |
| Guarantees.EveryRunDelivers | Src/rust_adapter.inc:49-207 | In every run and every connection, on a non-control endpoint whose IN side no callback of the connection closes or stops: the bytes the callbacks wrote equal reply payloads, then bytes in flight, then the staged packet, and each delivered packet was acknowledged once |
| Guarantees.EveryRunIsDecodable | Src/rust_adapter.inc:202-207 | In every run and every connection, the bytes sent are whole frames until a write fails, and then a proper prefix of one more; while no write has failed a host that knows the directions reads the exact reply list off the bytes sent |
| Service.EveryRunServes | Src/usbip.c:752-779 | In every run and every connection, whenever the loop comes to a poll: no request waits on an endpoint with a staged packet (endpoint 1 excepted, unless the device stages only on the endpoint whose completion it is told of); the device has run at least once per poll; and every poll that reported input has served exactly one command of a well-formed stream |
| Service.EveryRunEndsForCause | Src/usbip.c:752-779 | In every run and every connection: it is closed only because the input ended, the peer accepts no more, a packet overran its request, a request was refused or came before the import, or the poll failed; the process stops only for a packet against the contract, an unknown command, or a device that does not answer SET_ADDRESS |
| Service.EveryRunKeepsTime | Src/rust_adapter.inc:17-20 | In every run and every connection: the timer is armed as the device's callbacks ask, the timer callbacks called are those of the armings that fired, each at most once and in order, and none before the reading of its arming plus its delay |
| Service.ServerServesInTurn | Src/usbip.c:829-881 | The device is opened first; each peer is served from its own first byte; after a closed connection the device is reset, nothing of the connection is left, and the next peer follows |
| Service.PollFindsNothing | Src/usbip.c:752-760 | The first clause of the service law, for one connection |
| Service.CommandsAreServed | Src/usbip.c:760-779 | The last clause: submits read are those of the commands served, every other command has its reply, in order, the device is attached after an import, and the input is left at the next command |
| Service.DeviceRunsEveryTurn | Src/usbip.c:753-755 | At least one turn of the device loop for every poll, however the run ends |
| Service.DispatchAnswers | Src/usbip.c:764-776 | A command that continues leaves exactly the replies it is owed; an import attaches, and nothing else changes that; a submit is answered once for itself, or waits |
| Service.SubmitIsTakenUp | Src/rust_adapter.inc:123-140 | On an attached connection a submit read whole joins the requests read; it is refused exactly for an endpoint above 3, a direction above 1, more than 4096 OUT bytes, or an unopened endpoint, and then nothing else happens; otherwise the connection closes only for a short payload, a peer that accepts no more, or a packet that overruns |
| Service.UnattachedRefuses | Src/rust_adapter.inc:124-124 | Before the import a submit closes the connection |
| Service.UnknownStops | Src/usbip.c:772-775 | An unknown command word stops the process, and nothing was written or told |
| Service.PeersInTurn | Src/usbip.c:860-881 | The accept loop, from any resting state |
| Guarantees.ConnectionsAreIsolated | Src/usbip.c:860-881 | Over any number of connections: a RET_SUBMIT answers a submit read on that socket, IN payloads are packets written during that connection, every connection after the first starts with empty endpoints, and nothing is answered before the attach |
| Guarantees.AnsweredWasRead | Src/rust_adapter.inc:79-98 | A RET_SUBMIT, delayed or not, answers a submit that was read |
| Guarantees.AnsweredExactlyOnce | Src/rust_adapter.inc:123-208 | An answered sequence number is answered nowhere else, and is neither parked, nor cancelled, nor being served |
| Guarantees.NoneForgotten | Src/rust_adapter.inc:146-156 | A submit that was read is answered, parked, cancelled or being served |
| Guarantees.CancelledStaysUnanswered | Src/usbip.c:716-750 | A request cancelled by an unlink or a closed endpoint gets no RET_SUBMIT at any later moment of its connection |
| Guarantees.NothingLost | Src/rust_adapter.inc:176-207 | The conservation law for one connection, under the same condition on the device's callbacks |
| Guarantees.HostRecoversReplies | Src/rust_adapter.inc:202-207 | The host parser recovers the reply list from what was sent while the peer still accepts bytes, and from the whole frames in any case |
| Traces.ServeFollows | Src/rust_adapter.inc:33-43 | Over a connection the halt flags are what the device's callbacks made of them, and on a non-control endpoint only a close of its IN side or a stop throws a packet away |
| Traces.CallStep | Src/rust_adapter.inc:57-69 | An upcall is logged, uses one entry of the device's script, arms the timer as its callbacks ask, and stops the process only through a packet against the contract |
| Upcalls.OutRequest | Src/rust_adapter.inc:157-175 | The upcalls of an OUT request are its own SETUP, then each packet with a turn of the device loop, then the status stage, then the reply; an endpoint halted for OUT gets no data and the reply is -32 with length 0 |
| Upcalls.InRequest | Src/rust_adapter.inc:176-207 | The payload of an IN request is a complete run of packets for the length asked, or 4096 bytes, on status 0, and an open run otherwise; its upcalls are its own SETUP, turns of the device loop, one completion for each packet in its turn, the empty status packet, and then the reply |
| Upcalls.WaitingRequest | Src/rust_adapter.inc:146-156 | A refused or waiting interrupt request tells the device nothing; the refusal is -16 and changes no endpoint, the waiting request is the one remembered |
| Upcalls.DelayedAnswer | Src/rust_adapter.inc:81-96 | A waiting request with a staged packet is answered with status 0 and exactly that packet before the device is told; a packet that is too long closes the connection; a reply that cannot be written leaves request and packet |
| Upcalls.AttachUpcalls | Src/rust_adapter.inc:99-109 | An import resets the device, sends it SET_ADDRESS 1, insists on an empty status packet, completes it, and attaches |
| Upcalls.DisconnectUpcalls | Src/rust_adapter.inc:110-122 | A disconnect resets the device; no timer of the connection stays armed; packets and requests are forgotten and nothing else changes |
| Guarantees.DisconnectForgets | Src/rust_adapter.inc:110-122 | After a disconnect no endpoint holds a request, a packet or the memory of one |
| Invariants.ServeKeeps | Src/usbip.c:752-779 | The global invariant holds at every observation of a connection: buffer bounds, packet sizes, accounting of requests, bytes and frames, timer history; and the output is whole frames until a write fails |
| Invariants.SendWritten | Src/usbip.c:120-131 | A failed write leaves a proper prefix of the frame behind the whole ones, and a peer that accepts no more |
| Invariants.DispatchKeeps | Src/usbip.c:764-776 | Every command keeps the invariant and, if it does not fail, leaves only whole frames and no request half served |
| Invariants.TransferKeeps | Src/rust_adapter.inc:146-207 | So does every request, whatever the device does during it |
| Invariants.CompleteOneKeeps | Src/rust_adapter.inc:81-96 | Answering a parked request keeps the invariant, although the device may stage again inside ck_usb_in |
| Invariants.AttachKeeps | Src/rust_adapter.inc:99-109 | Attaching keeps the invariant and writes no reply |
| Invariants.UnlinkKeeps | Src/usbip.c:716-750 | Unlinking keeps the invariant |
| Callbacks.ApplyKeeps | Src/rust_adapter.inc:17-56 | A device callback at any moment keeps the invariant, ships and acknowledges nothing, and only moves requests from parked to cancelled |
| Callbacks.CallbackContract | Src/rust_adapter.inc:23-56 | What each callback changes and what it leaves, with the endpoint types and packet sizes in numbers |
| Callbacks.CallKeeps | Src/rust_adapter.inc:95-95 | So does any upcall with any number of callbacks inside it |
| Adapter.GatherTurnBounded | Src/rust_adapter.inc:192-195 | The gathered length never exceeds the capacity |
| Transfers.GatherRefinesAssemble | Src/rust_adapter.inc:176-207 | The IN loop takes a run of packets, answers with exactly their bytes, and touches no other endpoint; if the device does not close the endpoint during the transfer, the run is complete on success, and the open prefix gathered so far on a halt or timeout |
| Transfers.GatherDelivers | Src/rust_adapter.inc:161-199 | When the device offers the packets of a payload of at most 4096 bytes that the host asked for, and drops none, a successful reply of the running loop carries exactly that payload, and any other a prefix of it |
| Transfers.CompleteAssembles | Src/rust_adapter.inc:178-199 | A complete run is what the packet rule takes from any stream that starts with it |
| Transfers.UnfinishedAssembles | Src/rust_adapter.inc:178-199 | An open run took all there was and had not filled the buffer |
| Transfers.CompleteShape | Src/rust_adapter.inc:192-198 | In a complete run all packets but the last are full; the last is short, or the buffer is exactly full |
| Transfers.Split | Src/rust_adapter.inc:164-171 | OUT packets concatenate to the payload, none is empty, all but the last are full |
| Transfers.SplitGatherInverse | Src/rust_adapter.inc:161-199 | Gathering the packets of a payload, closed by an empty packet where it ends on a boundary, gives the payload back |
| Transfers.OutLoopSplits | Src/rust_adapter.inc:161-175 | The OUT loop reads exactly the announced payload; the device gets it in order, cut as `Split` says if it does not close the endpoint during the transfer, or nothing when the endpoint is halted, and the reply says which |
| Control.ControlOutVerdict | Src/rust_adapter.inc:157-175 | A control OUT is answered with success; this agrees with the device's halt flags if and only if its callbacks during the transfer leave neither set; its status packet is acknowledged once if one is staged when the data stage ends, and not otherwise |
| Control.RefusedOutSucceeds | Src/rust_adapter.inc:172-175 | A control OUT that the device refuses in its SETUP is reported as successful |
| Control.ControlInIsFresh | Src/rust_adapter.inc:157-200 | A control IN reply holds only bytes written during or after its own SETUP, and the device gets exactly one status stage |
| Transfers.TransferOutcome | Src/rust_adapter.inc:146-207 | A request is answered exactly once or parked; it parks exactly when it is an IN request to an interrupt endpoint with no request, packet or halt; a second one gets -EBUSY and changes no endpoint |
| Framing.InputStaysInSync | Src/usbip.c:752-779 | For any list of well-formed commands sent back to back, each dispatch starts at the first byte of the next command and the submits served are those of the list, in order |
| Framing.DispatchReads | Src/usbip.c:764-776 | A well-formed command is recognised and consumed to its last byte |
| Framing.SubmitReads | Src/rust_adapter.inc:123-171 | So is a submit with its payload, whether answered, parked, refused or drained on a halted endpoint |
| Progress.ServeLater | Src/usbip.c:752-779 | Nothing that was read, answered, cancelled or sent on a connection is ever revised |
| Interrupts.OnlyInterruptInParks | Src/rust_adapter.inc:146-156 | A parked request is an IN request for the interrupt endpoint it is parked on, and was read on this connection |
| Interrupts.PassSettles | Src/rust_adapter.inc:79-98 | After a completion pass every endpoint but 1 is settled, and endpoint 1 is unless endpoint 2 completes while a request waits on endpoint 1 and the device uses that completion to stage there: if and only if |
| Interrupts.OwnStagingSettles | Src/rust_adapter.inc:79-98 | With a device that stages only on the endpoint whose completion it is told of, every endpoint is settled after the pass |
| Interrupts.PassMayLeaveWork | Src/rust_adapter.inc:79-98 | A device that stages elsewhere leaves endpoint 1 with both a request and a packet |
| Interrupts.UnlinkCancelsTarget | Src/usbip.c:716-750 | Unlink cancels exactly the parked requests with the number, leaves everything else alone, and reports -104 when the number is that of the last request parked on some endpoint and 0 otherwise; never 0 for a parked one |
| Interrupts.UnlinkStatusIsRight | Src/usbip.c:722-736 | The status is right if and only if the number is parked, or no endpoint without a waiting request remembers it |
| Interrupts.AnsweredIsReportedReset | Src/usbip.c:722-736 | The status is wrong for every delayed answer just sent |
| Timing.FiresExactly | Src/rust_adapter.inc:63-67 | An armed timer fires at a poll if and only if its true deadline has passed and its lateness modulo 2^32 is below 2^31 |
| Timing.ArmsForDelay | Src/rust_adapter.inc:17-20 | The deadline is the reading plus the delay, modulo 2^32, and a new arming replaces the old |
| Timing.FiresOnTime | Src/rust_adapter.inc:63-67 | A turn of the device loop at or after the deadline calls the callback of the arming, before anything else, when it comes less than 2^31 ticks late |
| Timing.FiresNeverEarly | Src/rust_adapter.inc:63-67 | No firing of a run comes before the reading of its arming plus its delay, and it calls the callback of that arming |
| Timing.FiresAtMostOnce | Src/rust_adapter.inc:17-20 | The firings of a run belong to distinct armings, in the order they were made, and the arming that stands has not fired |
| Timing.RearmingSurvives | Src/rust_adapter.inc:63-67 | A callback that re-arms the timer does not lose the new arming |
| Timing.StatusIsJustified | Src/rust_adapter.inc:178-191 | An IN reply has status 0 when the buffer is full; otherwise -EPIPE if and only if the last look found the endpoint halted, and -ETIMEDOUT if and only if it found no packet and more than 10000 ticks (modulo 2^32) had passed |
| Timing.RequestStatusIsJustified | Src/rust_adapter.inc:176-200 | The same over the whole request, counted from the reading made when the data stage starts |
| Timing.WaitIsBounded | Src/rust_adapter.inc:177-199 | With the endpoint open, a clock that does not run backwards, a sleep that moves it, and a wait of at most 2^32 ticks, the IN loop makes at most one idle turn per tick of the timeout left, one turn per full packet that fits, and one more |
| Timing.TimeoutBound | Src/rust_adapter.inc:177-199 | From the start that is 10001 idle turns and capacity / packet size + 1 others |
| Wire.SubmitRoundTrip | Src/usbip.c:44-55 | Decoding an encoded submit gives it back |
| Wire.UnlinkRoundTrip | Src/usbip.c:70-77 | Decoding an encoded unlink gives it back |
| Wire.SubmitLayout | Src/usbip.c:44-77 | Each field of a submit or unlink body is read from its own four bytes |
| Wire.ReplyLayout | Src/usbip.c:57-86 | The replies byte for byte |
| Wire.StatusCodes | Src/rust_adapter.inc:148-187 | The statuses are the negated Linux error numbers, in two's complement |
| Bytes.BigEndian | Src/usbip.c:44-86 | The most significant byte comes first |
| Wire.FrameRoundTrip | Src/usbip.c:57-86 | A reply in front of any bytes is parsed back, leaving those bytes |
| Wire.OutputRoundTrip | Src/rust_adapter.inc:202-207 | Any list of replies of the server's shape is recovered by a host that knows the directions |
| Wire.DirectionIsNeeded | Src/rust_adapter.inc:141-143 | Two different reply lists with the same bytes, when the directions are not known |
| Sockets.Connection.ReadExact | Src/usbip.c:133-144 | For any segmentation, exactly the next bytes in order, or failure exactly when the stream is too short |
| Sockets.Connection.WriteExact | Src/usbip.c:120-131 | For any segmentation, exactly the bytes in order, or failure exactly when the peer accepts fewer |
| Server.RunServer | Src/usbip.c:829-881 | What every peer is sent is a function of the device, the clock and what the peers send, not of how the streams are split |
| Server.UsbIpServer.constructor | Src/usbip.c:117-118 | All variables start at zero |
| Server.UsbIpServer.ServePeers | Src/usbip.c:860-881 | The accept loop sends each peer what the sessions on states say |
| Server.UsbIpServer.UsbipLoop | Src/usbip.c:752-779 | The loop ends in the state and with the outcome of `Serve` |
| Server.UsbIpServer.DispatchCommand | Src/usbip.c:761-776 | One command, in place |
| Server.UsbIpServer.RustSubmit | Src/rust_adapter.inc:123-208 | One submit, in place |
| Server.UsbIpServer.OutTransfer | Src/rust_adapter.inc:161-175 | The OUT loop, in place |
| Server.UsbIpServer.GatherStep | Src/rust_adapter.inc:178-199 | A turn of the IN loop fills the byte buffer with the bytes gathered so far |
| Server.UsbIpServer.InTransfer | Src/rust_adapter.inc:176-207 | The IN loop, in place |
| Server.UsbIpServer.RustCompleteInterrupt | Src/rust_adapter.inc:79-98 | The completion pass, in place |
| Server.UsbIpServer.RustAttach | Src/rust_adapter.inc:99-109 | Attach, in place |
| Server.UsbIpServer.RustDisconnect | Src/rust_adapter.inc:110-122 | Disconnect, in place |
| Server.UsbIpServer.UsbipUnlink | Src/usbip.c:716-750 | Unlink, in place |
| Server.UsbIpServer.FindTargets | Src/usbip.c:722-736 | The search marks exactly the endpoints that remember the number, and the status is -104 if there is one and 0 otherwise |
| Server.UsbIpServer.UsbipDevList | Src/usbip.c:400-527 | The device list request, for framing |
| Server.UsbIpServer.UsbipImport | Src/usbip.c:529-618 | The import request, for framing and attachment |
| Server.UsbIpServer.CompatDeviceLoop | Src/rust_adapter.inc:57-69 | One turn of the device loop, in place |
| Server.UsbIpServer.DcdOpen | Src/rust_adapter.inc:24-32 | Opening an endpoint, in place |
| Server.UsbIpServer.DcdClose | Src/rust_adapter.inc:33-40 | Closing an endpoint, in place |
| Server.UsbIpServer.DcdStall | Src/rust_adapter.inc:41-43 | Halting an endpoint, in place |
| Server.UsbIpServer.DcdWrite | Src/rust_adapter.inc:49-56 | Staging a packet in the endpoint's row of the packet array, or stopping the process |
| Server.UsbIpServer.DcdStop | Src/rust_adapter.inc:23-23 | Stopping the device, in place |
| Server.UsbIpServer.DeviceSetTimeout | Src/rust_adapter.inc:17-20 | Arming the timer, in place |
| Legacy.TransmitAppends | Src/usbip.c:205-224 | A transmit appends to the queue |
| Legacy.SubmitTakesPrefix | Src/usbip.c:338-389 | A reply takes a prefix of the queue if and only if it asks for no more than is queued; then the endpoint is cleared exactly when the queue is empty |
| Legacy.EventMeaning | Src/usbip.c:685-707 | An IN request is served at once if an earlier one waits and there is data, and waits otherwise; the end of an OUT transfer serves a waiting request; an unlinked one is not served |
| Legacy.ReportIsDelivered | Src/usbip.c:685-707 | A report of the size asked for reaches the host with the next request or OUT transfer, unless the request was unlinked |
| Legacy.BufferIsAQueue | Src/usbip.c:146-159 | Over any run, bytes sent followed by bytes queued are the bytes queued at first followed by the bytes accepted |
| Legacy.FixedReportsFit | Src/usbip.c:685-707 | With fixed-size reports and requests the interrupt path never asks for more than is queued |
| Legacy.TxEndpoint.Transmit | Src/usbip.c:205-224 | Appending to the array, in place |
| Legacy.TxEndpoint.Clear | Src/usbip.c:154-159 | Clearing the endpoint |
| Legacy.TxEndpoint.TxSubmit | Src/usbip.c:338-389 | Sending the whole buffer or the next slice, in place |
| Legacy.TxEndpoint.HostIn | Src/usbip.c:696-705 | An IN request: noted, or served |
| Legacy.TxEndpoint.IntrOutDone | Src/usbip.c:693-694 | The asynchronous IN reply after an interrupt OUT |
| Legacy.TxEndpoint.Unlink | Src/usbip.c:746-748 | An unlinked endpoint waits no more and keeps its data |
| Legacy.ChunksConcatenate | Src/usbip.c:291-309 | Whatever sizes the device arms between chunks, they concatenate to the payload |
| Legacy.ChunkSizes | Src/usbip.c:291-309 | Every chunk but the last has exactly the size armed for it |
| Legacy.PayloadRx | Src/usbip.c:291-309 | The delivery loop terminates and delivers those chunks; on an early end of the stream, a prefix |

## Left out

- The firmware behind the callbacks (CCID, APDU, applets) and the historical USB stack: not in the repository; every behaviour they can show through the callbacks is allowed.
- Sockets, signals, `printf` and the touch file: environment; what a poll interrupted by a signal does is the same as a poll that reports nothing.
- The contents of the DEVLIST and IMPORT tables: arbitrary here, with the lengths of the source, for framing.
- The receive buffers (`rust_rx`, `rx_size`, `rust_out`) and `ck_usb_dcd_receive`, `_address`, `_ready`, `_start`, `_enable_irq`: nothing in the packet path reads or does anything through them.
- Callbacks with an endpoint number of 4 or more: the model's endpoint type excludes them; only two of the C callbacks check.
- Halt flags surviving a disconnect: the code does not reset them, nor does the model; no claim rests on it.
- Interrupt endpoints opened by a device with a different layout than the fixed table of `ck_usb_dcd_open`: the source has only that table.
- Isochronous transfers: the server ignores their fields; a host that sends none is assumed by the framing laws.
- Legacy.TxEndpoint.Transmit: requires room in the array, because the source copies without a bounds check.
- Legacy.TxEndpoint.TxSubmit: requires the slice to lie in the array, for the same reason.
- Legacy.TxEndpoint.HostIn: requires room for what the device transmits and, when it is served, a slice inside the array, for the same reason.
- Legacy.TxEndpoint.IntrOutDone: requires the slice it serves to lie in the array, for the same reason.
- Legacy.PayloadRx: requires positive armed sizes, because with a size of zero the source loops for ever; that the source answers the request even after an early end of the stream is not modelled.
- Exactly-once answering on the historical interrupt path: not claimed; an OUT transfer can serve the saved request again while data is queued.
- Completion callbacks of the historical bulk and control paths, and the flag for a closing empty packet beyond its setting and clearing: they start new transmissions, which the run of `Legacy.BufferIsAQueue` allows at any point.
- `Src/admin_vendor.c` and the runner under `compat/`: short branch tables and process plumbing.
