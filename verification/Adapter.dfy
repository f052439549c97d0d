/** What each function of the adapter and of the connection loop does, as functions on states.
    The class in Server.dfy runs the same steps in place and is proved equal to these functions;
    the other modules prove what the source promises about them. */
module Adapter {
  import opened Bytes
  import opened Wire
  import opened Model

  // -------------------------------------------------------- clock and socket

  /** device_get_tick(): the next reading of the wrapping clock. */
  function Now(s: State): uint32 {
    s.clock(s.ticks) % TWO_32
  }

  function Ticked(s: State): State {
    s.(ticks := s.ticks + 1)
  }

  /** a - b in 32-bit unsigned arithmetic. */
  function Minus32(a: uint32, b: uint32): uint32 {
    (a - b) % TWO_32
  }

  /** read_exact: all n bytes, or whatever the peer still had and failure. */
  function Read(s: State, n: nat): Run {
    var l := s.link;
    if n <= |l.input|
    then Run(s.(link := l.(input := l.input[n..], received := l.received + l.input[..n])), Continue)
    else Run(s.(link := l.(input := [], received := l.received + l.input)), Fatal)
  }

  /** write_exact: all the bytes, or as many as the peer accepts and failure. */
  function WriteBytes(s: State, b: seq<byte>): Run {
    var l := s.link;
    if |b| <= l.budget
    then Run(s.(link := l.(budget := l.budget - |b|, sent := l.sent + b)), Continue)
    else Run(s.(link := l.(budget := 0, sent := l.sent + b[..l.budget])), Fatal)
  }

  /** Writing in pieces is writing the whole. */
  lemma {:induction false} WriteInPieces(s: State, a: seq<byte>, b: seq<byte>)
    ensures WriteBytes(s, a + b) ==
            var r := WriteBytes(s, a); if r.IsFailure() then r else WriteBytes(r.state, b)
  {
    var l := s.link;
    if |a| + |b| <= l.budget {
      assert l.sent + (a + b) == l.sent + a + b;
    } else if |a| <= l.budget {
      var n := l.budget - |a|;
      assert (a + b)[..l.budget] == a + b[..n];
      assert l.sent + (a + b[..n]) == l.sent + a + b[..n];
    } else {
      assert (a + b)[..l.budget] == a[..l.budget];
    }
  }

  /** A whole reply; it joins the history when its last byte is out. */
  function Send(s: State, r: Reply): Run {
    var s1 :- WriteBytes(s, EncodeReply(r));
    Run(s1.(link := s1.link.(replies := s1.link.replies + [r])), Continue)
  }

  lemma {:induction false} SendFrame(s: State, r: Reply)
    ensures Send(s, r).state == s.(link := Send(s, r).state.link)
  {
    hide EncodeReply;
  }

  // -------------------------------------------------------- device callbacks

  function Opened(p: Port, ep: Ep, dirIn: bool): Port {
    p.(endpoint := p.endpoint.(kind := KindOf(ep), mps := PacketBytes(ep)),
       haltedIn := if dirIn then false else p.haltedIn,
       haltedOut := if dirIn then p.haltedOut else false)
  }

  function CancelParked(p: Port, cause: Cause): seq<Cancel> {
    if p.endpoint.hostReady then [Cancel(p.endpoint.intrIn, cause)] else []
  }

  function AddCancels(s: State, cs: seq<Cancel>): State {
    s.(link := s.link.(cancelled := s.link.cancelled + cs))
  }

  /** ck_usb_dcd_close: closing the IN side drops the staged packet and the parked request. */
  function Closed(s: State, ep: Ep, dirIn: bool): State {
    var p := s.ports[ep];
    var q := p.(endpoint := p.endpoint.(mps := 0));
    if dirIn
    then AddCancels(SetPort(s, ep, Unparked(Retired(q, Discarded(InClosed)))), CancelParked(p, EndpointClosed(ep)))
    else SetPort(s, ep, q)
  }

  /** device_set_timeout: deadline = now + milliseconds, in 32 bits. */
  function Armed(s: State, callback: nat, milliseconds: uint16): State {
    Ticked(s).(timer := Some(Timer(callback, (Now(s) + milliseconds) % TWO_32, |s.armings|)),
               armings := s.armings + [Arming(callback, milliseconds, s.clock(s.ticks))])
  }

  function AllRetired(ps: Ports): Ports {
    [Retired(ps[0], Discarded(DeviceStopped)), Retired(ps[1], Discarded(DeviceStopped)),
     Retired(ps[2], Discarded(DeviceStopped)), Retired(ps[3], Discarded(DeviceStopped))]
  }

  /** One call of the device into the adapter. */
  function Apply(s: State, c: Callback): (r: Run) {
    match c
    case Open(ep, dirIn) => Run(SetPort(s, ep, Opened(s.ports[ep], ep, dirIn)), Continue)
    case Close(ep, dirIn) => Run(Closed(s, ep, dirIn), Continue)
    case Stall(ep, dirIn, halt) =>
      var p := s.ports[ep];
      Run(SetPort(s, ep, if dirIn then p.(haltedIn := halt) else p.(haltedOut := halt)), Continue)
    case Write(ep, bytes) =>
      var p := s.ports[ep];
      if |bytes| <= p.endpoint.mps && !p.pending
      then Run(SetPort(s, ep, Staged(p, bytes)), Continue)
      else Run(s, Aborted)
    case Stop => Run(s.(ports := AllRetired(s.ports)), Continue)
    case SetTimeout(callback, ms) => Run(Armed(s, callback, ms), Continue)
  }

  function ApplyAll(s: State, cs: seq<Callback>): Run
    decreases |cs|
  {
    if cs == [] then Run(s, Continue)
    else
      var s1 :- Apply(s, cs[0]);
      ApplyAll(s1, cs[1..])
  }

  // ----------------------------------------------------------------- upcalls

  /** The history entry an upcall leaves. */
  function Noted(s: State, u: Upcall): State {
    var t := s.(calls := s.calls + [Made(u, |s.link.replies|)]);
    match u
    case InDone(ep) =>
      var p := s.ports[ep];
      SetPort(t, ep, p.(ledger := p.ledger.(acks := p.ledger.acks + 1)))
    case OutData(ep, bytes) =>
      var p := s.ports[ep];
      SetPort(t, ep, p.(ledger := p.ledger.(outs := p.ledger.outs + [bytes])))
    case _ => t
  }

  /** One call into the device, with everything the device does before it returns. A completion
      (ck_usb_in) is only ever reported with that endpoint's packet slot free. */
  function Call(s: State, u: Upcall): (r: Run)
    requires u.InDone? ==> !s.ports[u.ep].pending
    ensures |r.state.script| <= |s.script|
    ensures r.flow.Continue? ==> |r.state.script| < |s.script|
  {
    var s0 := Noted(s, u);
    if s.script == [] then Run(s0, Exhausted)
    else
      ApplyAllScript(s0.(script := s.script[1..]), s.script[0]);
      ApplyAll(s0.(script := s.script[1..]), s.script[0])
  }

  lemma {:induction false} ApplyAllScript(s: State, cs: seq<Callback>)
    ensures ApplyAll(s, cs).state.script == s.script
    decreases |cs|
  {
    if cs != [] {
      var r := Apply(s, cs[0]);
      if r.flow.Continue? {
        ApplyAllScript(r.state, cs[1..]);
      }
    }
  }

  /** Whether the timer fires at the reading `now`: (int32_t)(now - deadline) >= 0. */
  predicate Expired(t: Timer, now: uint32) {
    Minus32(now, t.deadline) < TWO_31
  }

  /** compat_device_loop. The clock is read only while a timer is armed, and the timer is disarmed
      before its callback runs. */
  function DeviceLoop(s: State): (r: Run)
    ensures |r.state.script| <= |s.script|
    ensures r.flow.Continue? ==> |r.state.script| < |s.script|
  {
    var s1 :- TimerStep(s);
    Call(s1, Loop)
  }

  /** The timer is read and disarmed; its callback comes next. */
  function Disarmed(s: State): State
    requires s.timer.Some?
  {
    Ticked(s).(timer := None, fired := s.fired + [Firing(s.timer.value.id, s.timer.value.callback, s.clock(s.ticks))])
  }

  function TimerStep(s: State): (r: Run)
    ensures |r.state.script| <= |s.script|
  {
    if s.timer.None? then Run(s, Continue)
    else if !Expired(s.timer.value, Now(s)) then Run(Ticked(s), Continue)
    else Call(Disarmed(s), TimerFired(s.timer.value.callback))
  }

  // ---------------------------------------------------- interrupt completion

  function SetRetired(s: State, ep: Ep, fate: Fate): State {
    SetPort(s, ep, Retired(s.ports[ep], fate))
  }

  /** One endpoint of rust_complete_interrupt. */
  function CompleteOne(s: State, ep: Ep): (r: Run)
    ensures |r.state.script| <= |s.script|
  {
    var p := s.ports[ep];
    if !p.endpoint.hostReady || !p.pending then Run(s, Continue)
    else if |p.packet| > p.endpoint.intrIn.length then Run(s, Fatal)
    else
      var s1 :- Send(s, RetSubmit(p.endpoint.intrIn, STATUS_OK, |p.packet|, p.packet));
      Call(SetPort(s1, ep, Retired(Unparked(p), Shipped)), InDone(ep))
  }

  /** rust_complete_interrupt from endpoint `ep` on. */
  function CompleteFrom(s: State, ep: nat): (r: Run)
    requires ep <= 4
    ensures |r.state.script| <= |s.script|
    decreases 4 - ep
  {
    if ep == 4 then Run(s, Continue)
    else
      var s1 :- CompleteOne(s, ep);
      CompleteFrom(s1, ep + 1)
  }

  function CompleteInterrupts(s: State): (r: Run)
    ensures |r.state.script| <= |s.script|
  {
    if !s.attached then Run(s, Continue) else CompleteFrom(s, 1)
  }

  // ------------------------------------------------------- attach, disconnect

  const ADDRESS_SETUP: seq<byte> := [0x00, 0x05, 0x01, 0x00, 0x00, 0x00, 0x00, 0x00]

  /** rust_attach. */
  function Attach(s: State): (r: Run)
    ensures |r.state.script| <= |s.script|
  {
    var s1 :- Call(s, BootReset);
    var s2 :- Call(s1, SetupStage(ADDRESS_SETUP));
    if !s2.ports[0].pending || s2.ports[0].packet != [] then Run(s2, Aborted)
    else
      var s3 :- Call(SetRetired(s2, 0, Acknowledged), InDone(0));
      Run(s3.(attached := true), Continue)
  }

  /** What the memsets of rust_disconnect leave of one endpoint. */
  function Wiped(p: Port): Port {
    var q := Unparked(Retired(p, Discarded(ConnectionEnded)));
    q.(packet := [], endpoint := q.endpoint.(intrIn := ZERO_SUBMIT))
  }

  /** rust_disconnect. */
  function Disconnect(s: State): (r: Run)
    ensures |r.state.script| <= |s.script|
  {
    var s1 :- Call(s.(attached := false, timer := None), BootReset);
    var ps := s1.ports;
    var cancels := CancelParked(ps[0], Disconnected) + CancelParked(ps[1], Disconnected)
                   + CancelParked(ps[2], Disconnected) + CancelParked(ps[3], Disconnected);
    Run(AddCancels(s1.(ports := [Wiped(ps[0]), Wiped(ps[1]), Wiped(ps[2]), Wiped(ps[3])]), cancels), Continue)
  }

  // ------------------------------------------------------------------ submit

  /** send_reply: the answer to the request being served. */
  function Answer(s: State, r: Submit, status: uint32, actual: uint32, payload: seq<byte>): (run: Run)
    ensures run.state.script == s.script
  {
    var s1 :- Send(s, RetSubmit(r, status, actual, payload));
    Run(s1.(link := s1.link.(current := None, gathered := [])), Continue)
  }

  function Begun(s: State, r: Submit): State {
    s.(link := s.link.(consumed := s.link.consumed + [r], current := Some(r), gathered := []))
  }

  function ParkedState(s: State, r: Submit): State
    requires r.ep < 4
  {
    SetPort(s, r.ep, Parked(s.ports[r.ep], r)).(link := s.link.(current := None))
  }

  /** After the OUT data stage: the status stage of a control transfer, then the reply. */
  function FinishOut(s: State, r: Submit, halted: bool): (run: Run)
    requires r.ep < 4
    ensures |run.state.script| <= |s.script|
  {
    var s1 :- if r.ep == 0 && s.ports[0].pending
              then Call(SetRetired(s, 0, Acknowledged), InDone(0)) else Run(s, Continue);
    if halted then Answer(s1, r, NEG_EPIPE, 0, []) else Answer(s1, r, STATUS_OK, r.length, [])
  }

  function Min(a: nat, b: nat): nat {
    if a <= b then a else b
  }

  /** Bytes of the next OUT packet when `done` bytes have been read. */
  function OutCount(s: State, r: Submit, done: nat): nat
    requires r.ep < 4 && done <= r.length
  {
    Min(r.length - done, s.ports[r.ep].endpoint.mps)
  }

  /** One turn of the OUT loop: a packet is read, handed to the device unless the endpoint is halted,
      and the device gets to run. */
  function OutTurn(s: State, r: Submit, halted: bool, count: nat): (run: Run)
    requires r.ep < 4
    ensures |run.state.script| <= |s.script|
    ensures run.flow.Continue? ==> |run.state.script| < |s.script| && count <= |s.link.input|
  {
    var s1 :- Read(s, count);
    var s2 :- if halted then Run(s1, Continue) else Call(s1, OutData(r.ep, s.link.input[..count]));
    DeviceLoop(s2)
  }

  /** The OUT loop of rust_submit with the payload read so far. */
  function OutLoop(s: State, r: Submit, halted: bool, data: seq<byte>): (run: Run)
    requires r.ep < 4
    ensures |run.state.script| <= |s.script|
    decreases |s.script|
  {
    if |data| >= r.length then FinishOut(s, r, halted)
    else
      var count := OutCount(s, r, |data|);
      var s1 :- OutTurn(s, r, halted, count);
      OutLoop(s1, r, halted, data + s.link.input[..count])
  }

  /** After the IN data stage: the status stage of a control transfer, then the reply with
      everything gathered. */
  function FinishIn(s: State, r: Submit, status: uint32): (run: Run)
    requires |s.link.gathered| <= TX_BUFFER_BYTES
    ensures |run.state.script| <= |s.script|
  {
    var s1 :- if r.ep == 0 then Call(s, OutData(0, [])) else Run(s, Continue);
    Answer(s1, r, status, |s.link.gathered|, s.link.gathered)
  }

  /** The packet slot is emptied into the gather buffer. */
  function Taken(s: State, ep: Ep): State {
    SetRetired(s.(link := s.link.(gathered := s.link.gathered + s.ports[ep].packet)), ep, Shipped)
  }

  /** One turn of the IN loop: either it ends with a status, or the loop goes on. */
  datatype Turn = Turn(run: Run, status: Option<uint32>)

  function GatherTurn(s: State, r: Submit, capacity: nat, started: uint32): (t: Turn)
    requires r.ep < 4
    requires |s.link.gathered| <= capacity
    ensures |t.run.state.script| <= |s.script|
    ensures t.run.flow.Continue? ==> |t.run.state.script| < |s.script|
  {
    var d := DeviceLoop(s);
    if d.IsFailure() then Turn(d, None)
    else
      var s1 := d.state;
      var p := s1.ports[r.ep];
      if p.haltedIn then Turn(d, Some(NEG_EPIPE))
      else if !p.pending then
        var idle := Run(Ticked(s1), Continue);
        if Minus32(Now(s1), started) > REQUEST_TIMEOUT_MS then Turn(idle, Some(NEG_ETIMEDOUT)) else Turn(idle, None)
      else if |p.packet| > capacity - |s.link.gathered| then Turn(Run(s1, Fatal), None)
      else
        var t := Call(Taken(s1, r.ep), InDone(r.ep));
        // The packet size is looked up after the device has been told of the completion.
        if t.flow.Continue? && |p.packet| < t.state.ports[r.ep].endpoint.mps then Turn(t, Some(STATUS_OK))
        else Turn(t, None)
  }

  /** The IN loop of rust_submit and what follows it. */
  function Gather(s: State, r: Submit, capacity: nat, started: uint32): (run: Run)
    requires r.ep < 4
    requires |s.link.gathered| <= capacity <= TX_BUFFER_BYTES
    ensures |run.state.script| <= |s.script|
    decreases |s.script|
  {
    if |s.link.gathered| >= capacity then FinishIn(s, r, STATUS_OK)
    else
      var t := GatherTurn(s, r, capacity, started);
      GatherTurnBounded(s, r, capacity, started);
      var s1 :- t.run;
      if t.status.Some? then FinishIn(s1, r, t.status.value) else Gather(s1, r, capacity, started)
  }

  lemma GatherTurnBounded(s: State, r: Submit, capacity: nat, started: uint32)
    requires r.ep < 4 && |s.link.gathered| <= capacity
    ensures |GatherTurn(s, r, capacity, started).run.state.link.gathered| <= capacity
  {
    DeviceLoopLink(s);
    var s1 := DeviceLoop(s).state;
    var p := s1.ports[r.ep];
    if |p.packet| <= capacity - |s.link.gathered| && p.pending {
      CallLink(Taken(s1, r.ep), InDone(r.ep));
    }
  }

  /** Callbacks leave the connection alone, except that closing an endpoint cancels. */
  predicate SameLink(l: Link, m: Link) {
    m == l.(cancelled := m.cancelled) && l.cancelled <= m.cancelled
  }

  predicate SameConnection(s: State, t: State) {
    SameLink(s.link, t.link) && t.attached == s.attached
  }

  lemma {:induction false} ApplyAllLink(s: State, cs: seq<Callback>)
    ensures SameConnection(s, ApplyAll(s, cs).state)
    decreases |cs|
  {
    if cs != [] {
      var r := Apply(s, cs[0]);
      assert SameConnection(s, r.state);
      if r.flow.Continue? {
        ApplyAllLink(r.state, cs[1..]);
      }
    }
  }

  lemma {:induction false} CallLink(s: State, u: Upcall)
    requires u.InDone? ==> !s.ports[u.ep].pending
    ensures SameConnection(s, Call(s, u).state)
  {
    if s.script != [] {
      ApplyAllLink(Noted(s, u).(script := s.script[1..]), s.script[0]);
    }
  }

  lemma {:induction false} DeviceLoopLink(s: State)
    ensures SameConnection(s, DeviceLoop(s).state)
  {
    if s.timer.Some? {
      CallLink(Disarmed(s), TimerFired(s.timer.value.callback));
    }
    CallLink(TimerStep(s).state, Loop);
  }

  /** A host may announce a larger IN buffer than the server stages. */
  function Capacity(r: Submit): (c: nat)
    ensures c <= TX_BUFFER_BYTES
  {
    Min(r.length, TX_BUFFER_BYTES)
  }

  /** The checks rust_submit makes before it serves a request. */
  predicate Acceptable(s: State, r: Submit) {
    && r.ep < 4
    && !(r.direction == 0 && r.length > TX_BUFFER_BYTES)
    && r.direction <= 1
    && (r.ep == 0 || s.ports[r.ep].endpoint.mps != 0)
  }

  predicate IsInterruptIn(s: State, r: Submit)
    requires r.ep < 4
  {
    r.ep != 0 && s.ports[r.ep].endpoint.kind == KIND_INTR && r.direction == 1
  }

  /** rust_submit after its checks. */
  function Transfer(s: State, r: Submit): (run: Run)
    requires Acceptable(s, r) && s.link.gathered == []
    ensures |run.state.script| <= |s.script|
  {
    var p := s.ports[r.ep];
    if IsInterruptIn(s, r) && p.endpoint.hostReady then Answer(s, r, NEG_EBUSY, 0, [])
    else if IsInterruptIn(s, r) && !p.pending && !p.haltedIn then Run(ParkedState(s, r), Continue)
    else
      CallLink(SetRetired(s, 0, Discarded(NewSetup)), SetupStage(r.setup));
      var s1 :- if r.ep == 0 then Call(SetRetired(s, 0, Discarded(NewSetup)), SetupStage(r.setup)) else Run(s, Continue);
      if r.direction == 0 then OutLoop(s1, r, r.ep != 0 && s1.ports[r.ep].haltedOut, [])
      else Gather(Ticked(s1), r, Capacity(r), Now(s1))
  }

  /** rust_submit. */
  function ServeSubmit(s: State): (run: Run)
    ensures |run.state.script| <= |s.script|
  {
    if !s.attached then Run(s, Fatal)
    else
      var s1 :- Read(s, BODY_BYTES);
      var r := DecodeSubmit(s.link.input[..BODY_BYTES]);
      var s2 := Begun(s1, r);
      if !Acceptable(s2, r) then Run(s2, Fatal) else Transfer(s2, r)
  }

  // ------------------------------------------------------------------ unlink

  /** Endpoints whose last interrupt request has the sequence number lose their ready flag. */
  function UnlinkPort(p: Port, target: uint32): Port {
    if p.endpoint.intrIn.seqNum == target then Unparked(p) else p
  }

  function UnlinkCancels(p: Port, target: uint32): seq<Cancel> {
    if p.endpoint.intrIn.seqNum == target then CancelParked(p, Unlinked(target)) else []
  }

  predicate UnlinkHits(ps: Ports, target: uint32) {
    exists ep :: 0 <= ep < 4 && ps[ep].endpoint.intrIn.seqNum == target
  }

  function UnlinkedState(s: State, target: uint32): State {
    var ps := s.ports;
    AddCancels(
      s.(ports := [UnlinkPort(ps[0], target), UnlinkPort(ps[1], target), UnlinkPort(ps[2], target), UnlinkPort(ps[3], target)]),
      UnlinkCancels(ps[0], target) + UnlinkCancels(ps[1], target) + UnlinkCancels(ps[2], target) + UnlinkCancels(ps[3], target))
  }

  function UnlinkStatus(ps: Ports, target: uint32): uint32 {
    if UnlinkHits(ps, target) then NEG_ECONNRESET else STATUS_OK
  }

  /** usbip_unlink. */
  function ServeUnlink(s: State): (run: Run)
    ensures run.state.script == s.script
  {
    var s1 :- Read(s, BODY_BYTES);
    var u := DecodeUnlink(s.link.input[..BODY_BYTES]);
    var s2 :- Send(s1, RetUnlink(u.seqNum, UnlinkStatus(s1.ports, u.target)));
    Run(UnlinkedState(s2, u.target), Continue)
  }

  // --------------------------------------------------------- connection loop

  function ServeDevList(s: State): (run: Run)
    ensures run.state.script == s.script
  {
    var s1 :- Read(s, 4);
    Send(s1, RetDevList(s1.tables.devlist))
  }

  function ServeImport(s: State): (run: Run)
    ensures |run.state.script| <= |s.script|
  {
    var s1 :- Read(s, 4);
    var s2 :- Read(s1, 32);
    var s3 :- Send(s2, RetImport(Zeros(4) + s2.tables.path + s1.link.input[..32] + s2.tables.device));
    Attach(s3)
  }

  /** One command of usbip_loop: read the command word and switch on it. */
  function Dispatch(s: State): (run: Run)
    ensures |run.state.script| <= |s.script|
  {
    var s0 := s.(link := s.link.(heads := s.link.heads + [|s.link.received|]));
    var s1 :- Read(s0, 4);
    var w := s0.link.input[..4];
    if w[2] == 0x80 && w[3] == 0x05 then ServeDevList(s1)
    else if w[2] == 0x80 && w[3] == 0x03 then ServeImport(s1)
    else if w == CMD_SUBMIT then ServeSubmit(s1)
    else if w == CMD_UNLINK then ServeUnlink(s1)
    else Run(s1, Aborted)
  }

  function Polled(s: State): State
    requires s.link.polls != []
  {
    s.(link := s.link.(polls := s.link.polls[1..]))
  }

  /** usbip_loop: it only ever leaves with a failure. */
  function Serve(s: State): (run: Run)
    ensures !run.flow.Continue?
    ensures |run.state.script| <= |s.script|
    decreases |s.script|
  {
    var s1 :- DeviceLoop(s);
    var s2 :- CompleteInterrupts(s1);
    if s2.link.polls == [] then Run(s2, Exhausted)
    else if s2.link.polls[0].Failed? then Run(Polled(s2), Fatal)
    else if s2.link.polls[0].Nothing? then Serve(Polled(s2))
    else
      var s3 :- Dispatch(Polled(s2));
      Serve(s3)
  }
}
