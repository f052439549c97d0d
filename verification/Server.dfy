/** The server as it runs: C structs and arrays updated in place, with the device re-entering
    through callbacks. `st` is the abstract state; Valid() ties every variable to it, and every
    method is proved to take it exactly where the functions of Adapter.dfy say, however the network
    splits the streams. */
module Server {
  import opened Bytes
  import opened Wire
  import opened Model
  import opened Adapter
  import opened Sockets
  import Connections

  class UsbIpServer {
    const clock: nat -> nat
    const tables: Tables
    const conn: Connection

    const endpoints: array<Endpoint>        // struct Endpoint endpoints[EP_NUM]
    const rustPending: array<bool>          // rust_pending[EP_NUM]
    const rustHalted: array2<bool>          // rust_halted[EP_NUM][2]
    const rustPacketLength: array<nat>      // rust_packet_length[EP_NUM]
    const rustPacket: array2<byte>          // rust_packet[EP_NUM][64]
    var rustTimer: Option<nat>              // rust_timer, None for NULL
    var rustDeadline: uint32                // rust_deadline
    var rustAttached: bool
    var ticks: nat                          // clock readings so far
    var script: seq<seq<Callback>>          // what the device does in the upcalls to come
    ghost var st: State

    ghost function Objects(): set<object> {
      {this, conn, endpoints, rustPending, rustHalted, rustPacketLength, rustPacket}
    }

    /** The row of rust_packet holds these bytes. */
    ghost predicate Holds(ep: Ep, packet: seq<byte>)
      requires rustPacket.Length0 == 4 && rustPacket.Length1 == PACKET_ROW_BYTES && |packet| <= PACKET_ROW_BYTES
      reads rustPacket
    {
      forall i :: 0 <= i < |packet| ==> rustPacket[ep, i] == packet[i]
    }

    ghost predicate Shape() {
      && endpoints.Length == rustPending.Length == rustPacketLength.Length == 4
      && rustHalted.Length0 == rustPacket.Length0 == 4
      && rustHalted.Length1 == 2 && rustPacket.Length1 == PACKET_ROW_BYTES
    }

    /** The variables of one endpoint agree with the abstract port. */
    ghost predicate Agrees(ep: Ep, p: Port)
      requires Shape()
      reads endpoints, rustPending, rustHalted, rustPacketLength, rustPacket
    {
      && endpoints[ep] == p.endpoint && p.endpoint.mps <= PACKET_ROW_BYTES
      && rustPending[ep] == p.pending
      && rustHalted[ep, 0] == p.haltedOut && rustHalted[ep, 1] == p.haltedIn
      && rustPacketLength[ep] == |p.packet| && |p.packet| <= PACKET_ROW_BYTES
      && Holds(ep, p.packet)
    }

    ghost predicate AgreesAll(ps: Ports)
      requires Shape()
      reads endpoints, rustPending, rustHalted, rustPacketLength, rustPacket
    {
      forall ep: Ep :: Agrees(ep, ps[ep])
    }

    ghost predicate AgreesSocket(l: Link)
      reads conn
    {
      && conn.input == l.input && conn.budget == l.budget && conn.polls == l.polls
      && conn.sent == l.sent && conn.received == l.received
    }

    ghost predicate Valid()
      reads Objects()
    {
      && Shape() && AgreesAll(st.ports) && AgreesSocket(st.link)
      && st.timer.Some? == rustTimer.Some?
      && (rustTimer.Some? ==> st.timer.value.callback == rustTimer.value && st.timer.value.deadline == rustDeadline)
      && st.attached == rustAttached
      && st.ticks == ticks && st.script == script && st.clock == clock && st.tables == tables
    }

    constructor (clock: nat -> nat, script: seq<seq<Callback>>, tables: Tables)
      ensures Valid() && fresh(Objects())
      ensures st == Connections.PowerOn(clock, script, tables)
      ensures !rustAttached && rustTimer.None?
      ensures forall ep: Ep ::
                && endpoints[ep] == Endpoint(0, 0, false, ZERO_SUBMIT) && !rustPending[ep]
                && !rustHalted[ep, 0] && !rustHalted[ep, 1]
    {
      this.clock, this.script, this.tables := clock, script, tables;
      conn := new Connection();
      endpoints := new Endpoint[4](_ => Endpoint(0, 0, false, ZERO_SUBMIT));
      rustPending := new bool[4](_ => false);
      rustHalted := new bool[4, 2]((_, _) => false);
      rustPacketLength := new nat[4](_ => 0);
      rustPacket := new byte[4, PACKET_ROW_BYTES]((_, _) => 0);
      rustTimer, rustDeadline, rustAttached, ticks := None, 0, false, 0;
      st := Connections.PowerOn(clock, script, tables);
      new;
      forall ep: Ep ensures Agrees(ep, IDLE_PORT) && st.ports[ep] == IDLE_PORT {
        assert rustPacketLength[ep] == 0;
      }
    }

    // ---------------------------------------------------- callbacks, in place

    /** ck_usb_dcd_open */
    method DcdOpen(ep: Ep, dirIn: bool)
      requires Valid()
      modifies Objects()
      ensures Valid() && Run(st, Continue) == Apply(old(st), Open(ep, dirIn))
    {
      hide Holds;
      endpoints[ep] := endpoints[ep].(kind := if ep == 0 then KIND_CTRL else if ep == 3 then KIND_BULK else KIND_INTR,
                                      mps := if ep == 0 then 16 else if ep == 1 then 8 else 64);
      if dirIn {
        rustHalted[ep, 1] := false;
      } else {
        rustHalted[ep, 0] := false;
      }
      st := SetPort(st, ep, Opened(st.ports[ep], ep, dirIn));
    }

    /** ck_usb_dcd_close */
    method DcdClose(ep: Ep, dirIn: bool)
      requires Valid()
      modifies Objects()
      ensures Valid() && Run(st, Continue) == Apply(old(st), Close(ep, dirIn))
    {
      hide Holds;
      endpoints[ep] := endpoints[ep].(mps := 0);
      if dirIn {
        rustPending[ep] := false;
        endpoints[ep] := endpoints[ep].(hostReady := false);
      }
      st := Closed(st, ep, dirIn);
    }

    /** ck_usb_dcd_stall */
    method DcdStall(ep: Ep, dirIn: bool, halt: bool)
      requires Valid()
      modifies Objects()
      ensures Valid() && Run(st, Continue) == Apply(old(st), Stall(ep, dirIn, halt))
    {
      hide Holds;
      if dirIn {
        rustHalted[ep, 1] := halt;
      } else {
        rustHalted[ep, 0] := halt;
      }
      st := Apply(st, Stall(ep, dirIn, halt)).state;
    }

    /** ck_usb_dcd_write: its assert stops the process. */
    method DcdWrite(ep: Ep, bytes: seq<byte>) returns (flow: Flow)
      requires Valid()
      modifies Objects()
      ensures Valid() && Run(st, flow) == Apply(old(st), Write(ep, bytes))
    {
      if !(|bytes| <= endpoints[ep].mps && !rustPending[ep]) {
        return Aborted;
      }
      assert Agrees(ep, st.ports[ep]);
      forall i | 0 <= i < |bytes| {
        rustPacket[ep, i] := bytes[i];
      }
      rustPacketLength[ep] := |bytes|;
      rustPending[ep] := true;
      st := SetPort(st, ep, Staged(st.ports[ep], bytes));
      return Continue;
    }

    /** ck_usb_dcd_stop */
    method DcdStop()
      requires Valid()
      modifies Objects()
      ensures Valid() && Run(st, Continue) == Apply(old(st), Stop)
    {
      forall i | 0 <= i < 4 {
        rustPending[i] := false;
      }
      ghost var ps := st.ports;
      st := st.(ports := AllRetired(ps));
      forall ep: Ep ensures Agrees(ep, st.ports[ep]) {
        assert old(Agrees(ep, ps[ep]));
        assert st.ports[ep] == Retired(ps[ep], Discarded(DeviceStopped));
      }
    }

    /** device_get_tick */
    method Tick() returns (now: uint32)
      requires Valid()
      modifies Objects()
      ensures Valid() && now == Now(old(st)) && st == Ticked(old(st))
    {
      now := clock(ticks) % TWO_32;
      ticks := ticks + 1;
      st := Ticked(st);
    }

    /** device_set_timeout */
    method DeviceSetTimeout(callback: nat, milliseconds: uint16)
      requires Valid()
      modifies Objects()
      ensures Valid() && Run(st, Continue) == Apply(old(st), SetTimeout(callback, milliseconds))
    {
      ghost var s0 := st;
      var now := Tick();
      rustTimer := Some(callback);
      rustDeadline := (now + milliseconds) % TWO_32;
      st := Armed(s0, callback, milliseconds);
    }

    /** Whatever the device does in one callback. */
    method Perform(c: Callback) returns (flow: Flow)
      requires Valid()
      modifies Objects()
      ensures Valid() && Run(st, flow) == Apply(old(st), c)
    {
      hide Valid, Apply;
      flow := Continue;
      match c
      case Open(ep, dirIn) => DcdOpen(ep, dirIn);
      case Close(ep, dirIn) => DcdClose(ep, dirIn);
      case Stall(ep, dirIn, halt) => DcdStall(ep, dirIn, halt);
      case Write(ep, bytes) => flow := DcdWrite(ep, bytes);
      case Stop => DcdStop();
      case SetTimeout(callback, ms) => DeviceSetTimeout(callback, ms);
    }

    ghost method SetHistory(t: State)
      requires Valid() && AgreesAll(t.ports) && AgreesSocket(t.link)
      requires t == st.(ports := t.ports, link := t.link, armings := t.armings, fired := t.fired, calls := t.calls)
      modifies this`st
      ensures Valid() && st == t
    {
      st := t;
    }

    /** A call into the device; it re-enters through callbacks before it returns. */
    method CallDevice(u: Upcall) returns (flow: Flow)
      requires Valid()
      requires u.InDone? ==> !st.ports[u.ep].pending
      modifies Objects()
      ensures Valid() && Run(st, flow) == Call(old(st), u)
    {
      SetHistory(Noted(st, u));
      if script == [] {
        return Exhausted;
      }
      var cs := script[0];
      script := script[1..];
      st := st.(script := script);
      flow := PerformAll(cs);
    }

    method PerformAll(cs: seq<Callback>) returns (flow: Flow)
      requires Valid()
      modifies Objects()
      ensures Valid() && Run(st, flow) == ApplyAll(old(st), cs)
    {
      hide Valid, Apply;
      var i := 0;
      while i < |cs|
        invariant Valid() && i <= |cs|
        invariant ApplyAll(st, cs[i..]) == ApplyAll(old(st), cs)
      {
        flow := Perform(cs[i]);
        assert cs[i..][1..] == cs[i + 1..];
        if flow.IsFailure() {
          return;
        }
        i := i + 1;
      }
      flow := Continue;
    }

    /** compat_device_loop */
    method CompatDeviceLoop() returns (flow: Flow)
      requires Valid()
      modifies Objects()
      ensures Valid() && Run(st, flow) == DeviceLoop(old(st))
    {
      hide Call;
      if rustTimer.Some? {
        ghost var s0 := st;
        var now := Tick();
        if Minus32(now, rustDeadline) < TWO_31 {
          var callback := rustTimer.value;
          rustTimer := None;
          st := Disarmed(s0);
          :- CallDevice(TimerFired(callback));
        }
      }
      flow := CallDevice(Loop);
    }

    // ------------------------------------------------------------- the socket

    method ReadExact(buffer: array<byte>, count: nat) returns (flow: Flow)
      requires Valid() && count <= buffer.Length && buffer !in Objects()
      modifies Objects(), buffer
      ensures Valid() && Run(st, flow) == Read(old(st), count)
      ensures flow.Continue? ==> buffer[..count] == old(st).link.input[..count]
    {
      var ok := conn.ReadExact(buffer, count);
      st := Read(st, count).state;
      flow := if ok then Continue else Fatal;
    }

    method WriteExact(data: seq<byte>) returns (flow: Flow)
      requires Valid()
      modifies Objects()
      ensures Valid() && Run(st, flow) == WriteBytes(old(st), data)
    {
      var ok := conn.WriteExact(data);
      st := WriteBytes(st, data).state;
      flow := if ok then Continue else Fatal;
    }

    /** The command word, the body and the payload of a reply to `req`, one write_exact each. */
    method SendSubmitReply(ghost req: Submit, seqNum: uint32, status: uint32, actual: uint32, payload: seq<byte>) returns (flow: Flow)
      requires Valid() && seqNum == req.seqNum
      modifies Objects()
      ensures Valid() && Run(st, flow) == Send(old(st), RetSubmit(req, status, actual, payload))
    {
      hide Valid, RetSubmitBody, WriteBytes;
      var body := RetSubmitBody(seqNum, status, actual);
      WriteInPieces(st, RET_SUBMIT + body, payload);
      WriteInPieces(st, RET_SUBMIT, body);
      :- WriteExact(RET_SUBMIT);
      :- WriteExact(body);
      :- WriteExact(payload);
      NoteReply(RetSubmit(req, status, actual, payload));
      return Continue;
    }

    ghost method NoteReply(r: Reply)
      requires Valid()
      modifies Objects()
      ensures Valid() && st == old(st).(link := old(st).link.(replies := old(st).link.replies + [r]))
    {
      st := st.(link := st.link.(replies := st.link.replies + [r]));
    }

    // ------------------------------------------------------ parked interrupts

    /** The staged packet of an endpoint, copied out. */
    method CopyPacket(ep: Ep) returns (packet: seq<byte>)
      requires Valid()
      ensures packet == st.ports[ep].packet
    {
      assert Agrees(ep, st.ports[ep]);
      packet := seq(rustPacketLength[ep], i requires 0 <= i < rustPacketLength[ep] reads this, rustPacket, rustPacketLength
                                            requires Shape() && rustPacketLength[ep] <= PACKET_ROW_BYTES => rustPacket[ep, i]);
      assert forall i :: 0 <= i < |packet| ==> packet[i] == st.ports[ep].packet[i];
    }

    /** rust_complete_interrupt */
    method RustCompleteInterrupt() returns (flow: Flow)
      requires Valid()
      modifies Objects()
      ensures Valid() && Run(st, flow) == CompleteInterrupts(old(st))
    {
      if !rustAttached {
        return Continue;
      }
      var ep := 1;
      while ep < 4
        invariant 1 <= ep <= 4 && Valid()
        invariant CompleteFrom(st, ep) == CompleteFrom(old(st), 1)
      {
        flow := CompleteEndpoint(ep);
        if flow.IsFailure() {
          return;
        }
        ep := ep + 1;
      }
      return Continue;
    }

    /** The body of its loop. */
    method CompleteEndpoint(ep: Ep) returns (flow: Flow)
      requires Valid()
      modifies Objects()
      ensures Valid() && Run(st, flow) == CompleteOne(old(st), ep)
    {
      hide Call, Send;
      assert Agrees(ep, st.ports[ep]);
      if !endpoints[ep].hostReady || !rustPending[ep] {
        return Continue;
      }
      var count := rustPacketLength[ep];
      if count > endpoints[ep].intrIn.length {
        return Fatal;
      }
      ghost var p := st.ports[ep];
      var packet := CopyPacket(ep);
      SendFrame(st, RetSubmit(p.endpoint.intrIn, STATUS_OK, count, packet));
      :- SendSubmitReply(endpoints[ep].intrIn, endpoints[ep].intrIn.seqNum, STATUS_OK, count, packet);
      FreeSlot(ep);
      flow := CallDevice(InDone(ep));
    }

    /** host_ready = 0; rust_pending = 0 */
    method FreeSlot(ep: Ep)
      requires Valid() && st.ports[ep].pending
      modifies Objects()
      ensures Valid() && st == SetPort(old(st), ep, Retired(Unparked(old(st).ports[ep]), Shipped))
    {
      hide Holds;
      endpoints[ep] := endpoints[ep].(hostReady := false);
      rustPending[ep] := false;
      st := SetPort(st, ep, Retired(Unparked(st.ports[ep]), Shipped));
    }

    /** rust_pending = 0, for a packet that leaves with the given fate. */
    method ClearPending(ep: Ep, ghost fate: Fate)
      requires Valid()
      modifies Objects()
      ensures Valid() && st == SetRetired(old(st), ep, fate)
    {
      hide Holds;
      rustPending[ep] := false;
      st := SetRetired(st, ep, fate);
    }

    // ------------------------------------------------------ attach, disconnect

    /** rust_attach */
    method RustAttach() returns (flow: Flow)
      requires Valid()
      modifies Objects()
      ensures Valid() && Run(st, flow) == Attach(old(st))
    {
      hide Call;
      :- CallDevice(BootReset);
      :- CallDevice(SetupStage([0x00, 0x05, 0x01, 0x00, 0x00, 0x00, 0x00, 0x00]));
      assert Agrees(0, st.ports[0]);
      if !(rustPending[0] && rustPacketLength[0] == 0) {
        return Aborted;
      }
      ClearPending(0, Acknowledged);
      :- CallDevice(InDone(0));
      rustAttached := true;
      st := st.(attached := true);
      return Continue;
    }

    /** rust_disconnect */
    method RustDisconnect() returns (flow: Flow)
      requires Valid()
      modifies Objects()
      ensures Valid() && Run(st, flow) == Disconnect(old(st))
    {
      hide Call;
      rustAttached, rustTimer := false, None;
      st := st.(attached := false, timer := None);
      :- CallDevice(BootReset);
      WipeEndpoints();
      return Continue;
    }

    /** Its memsets, row by row. */
    method WipeEndpoints()
      requires Valid()
      modifies Objects()
      ensures Valid()
      ensures
        var ps := old(st).ports;
        st == AddCancels(old(st).(ports := [Wiped(ps[0]), Wiped(ps[1]), Wiped(ps[2]), Wiped(ps[3])]),
                         CancelParked(ps[0], Disconnected) + CancelParked(ps[1], Disconnected)
                         + CancelParked(ps[2], Disconnected) + CancelParked(ps[3], Disconnected))
    {
      hide Valid;
      ghost var ps := st.ports;
      var ep := 0;
      while ep < 4
        invariant 0 <= ep <= 4 && Valid()
        invariant st == old(st).(ports := st.ports)
        invariant forall e: Ep :: st.ports[e] == if e < ep then Wiped(ps[e]) else ps[e]
      {
        WipeEndpoint(ep);
        ep := ep + 1;
      }
      NoteCancels(CancelParked(ps[0], Disconnected) + CancelParked(ps[1], Disconnected)
                  + CancelParked(ps[2], Disconnected) + CancelParked(ps[3], Disconnected));
      assert st.ports == [Wiped(ps[0]), Wiped(ps[1]), Wiped(ps[2]), Wiped(ps[3])];
    }

    ghost method NoteCancels(cs: seq<Cancel>)
      requires Valid()
      modifies Objects()
      ensures Valid() && st == AddCancels(old(st), cs)
    {
      st := AddCancels(st, cs);
    }

    method WipeEndpoint(ep: Ep)
      requires Valid()
      modifies Objects()
      ensures Valid() && st == SetPort(old(st), ep, Wiped(old(st).ports[ep]))
    {
      rustPending[ep] := false;
      forall j | 0 <= j < PACKET_ROW_BYTES {
        rustPacket[ep, j] := 0;
      }
      rustPacketLength[ep] := 0;
      endpoints[ep] := endpoints[ep].(hostReady := false, intrIn := ZERO_SUBMIT);
      st := SetPort(st, ep, Wiped(st.ports[ep]));
    }

    // ------------------------------------------------------------------ submit

    /** The send_reply tail of rust_submit. */
    method SendReply(r: Submit, status: uint32, length: nat, payload: seq<byte>) returns (flow: Flow)
      requires Valid() && length <= r.length && (r.direction == 1 ==> length == |payload|) && (r.direction == 0 ==> payload == [])
      modifies Objects()
      ensures Valid()
      ensures Run(st, flow) ==
              Answer(old(st), r, status, if r.direction == 0 && status != 0 then 0 else length, payload)
    {
      hide Send;
      var actual := if r.direction == 0 && status != 0 then 0 else length;
      :- SendSubmitReply(r, r.seqNum, status, actual, payload);
      st := st.(link := st.link.(current := None, gathered := []));
      return Continue;
    }

    /** One turn of the OUT loop. */
    method OutStep(r: Submit, bytes: array<byte>, halted: bool, count: nat) returns (flow: Flow)
      requires Valid() && r.ep < 4 && bytes !in Objects() && count <= bytes.Length
      modifies Objects(), bytes
      ensures Valid() && Run(st, flow) == OutTurn(old(st), r, halted, count)
    {
      hide Valid, Call, DeviceLoop;
      :- ReadExact(bytes, count);
      if !halted {
        :- CallDevice(OutData(r.ep, bytes[..count]));
      }
      flow := CompatDeviceLoop();
    }

    /** The OUT data stage: the payload goes to the device packet by packet, or is only drained when
        the endpoint is halted. */
    method OutTransfer(r: Submit) returns (flow: Flow)
      requires Valid() && r.ep < 4 && r.direction == 0 && r.length <= TX_BUFFER_BYTES
      modifies Objects()
      ensures Valid()
      ensures Run(st, flow) == OutLoop(old(st), r, r.ep != 0 && old(st).ports[r.ep].haltedOut, [])
    {
      hide OutTurn, FinishOut, AgreesAll;
      AgreesAt(r.ep);
      var halted := r.ep != 0 && rustHalted[r.ep, 0];
      var bytes := new byte[TX_BUFFER_BYTES];
      var length: nat := 0;
      ghost var data := [];
      while length < r.length
        invariant length == |data| <= r.length
        invariant Valid()
        invariant OutLoop(st, r, halted, data) == OutLoop(old(st), r, halted, [])
        decreases |st.script|
      {
        ghost var s0 := st;
        AgreesAt(r.ep);
        var count := r.length - length;
        if count > endpoints[r.ep].mps {
          count := endpoints[r.ep].mps;
        }
        flow := OutStep(r, bytes, halted, count);
        if flow.IsFailure() {
          return;
        }
        data := data + s0.link.input[..count];
        length := length + count;
      }
      flow := OutStatus(r, halted);
    }

    /** The status stage of a control OUT, and the reply. */
    method OutStatus(r: Submit, halted: bool) returns (flow: Flow)
      requires Valid() && r.ep < 4 && r.direction == 0
      modifies Objects()
      ensures Valid() && Run(st, flow) == FinishOut(old(st), r, halted)
    {
      hide Call, Answer;
      assert Agrees(0, st.ports[0]);
      if r.ep == 0 && rustPending[0] {
        ClearPending(0, Acknowledged);
        :- CallDevice(InDone(0));
      }
      flow := SendReply(r, if halted then NEG_EPIPE else STATUS_OK, r.length, []);
    }

    /** One turn of the IN loop. */
    method GatherStep(r: Submit, bytes: array<byte>, length: nat, capacity: nat, started: uint32)
      returns (flow: Flow, gathered: nat, status: Option<uint32>)
      requires Valid() && r.ep < 4 && bytes !in Objects() && bytes.Length == TX_BUFFER_BYTES
      requires length <= capacity <= TX_BUFFER_BYTES && bytes[..length] == st.link.gathered
      modifies Objects(), bytes
      ensures Valid() && Turn(Run(st, flow), status) == GatherTurn(old(st), r, capacity, started)
      ensures flow.Continue? ==> gathered <= capacity && bytes[..gathered] == st.link.gathered
    {
      hide Call, DeviceLoop, AgreesAll;
      ghost var s0 := st;
      gathered, status := length, None;
      DeviceLoopLink(st);
      flow := CompatDeviceLoop();
      if flow.IsFailure() {
        return;
      }
      AgreesAt(r.ep);
      if rustHalted[r.ep, 1] {
        status := Some(NEG_EPIPE);
        return;
      }
      if !rustPending[r.ep] {
        var now := Tick();
        if Minus32(now, started) > REQUEST_TIMEOUT_MS {
          status := Some(NEG_ETIMEDOUT);
        }
        return;
      }
      var count := rustPacketLength[r.ep];
      if count > capacity - length {
        return Fatal, gathered, None;
      }
      var packet := CopyPacket(r.ep);
      forall i | 0 <= i < count {
        bytes[length + i] := packet[i];
      }
      gathered := length + count;
      assert bytes[..gathered] == s0.link.gathered + packet;
      TakePacket(r.ep);
      CallLink(st, InDone(r.ep));
      flow := CallDevice(InDone(r.ep));
      if flow.IsFailure() {
        return;
      }
      AgreesAt(r.ep);
      if count < endpoints[r.ep].mps {
        status := Some(STATUS_OK);
      }
    }

    lemma AgreesAt(ep: Ep)
      requires Valid()
      ensures Agrees(ep, st.ports[ep])
    {}

    /** rust_pending = 0 for a packet copied into the gather buffer. */
    method TakePacket(ep: Ep)
      requires Valid()
      modifies Objects()
      ensures Valid() && st == Taken(old(st), ep)
    {
      hide Holds;
      rustPending[ep] := false;
      st := Taken(st, ep);
    }

    /** The IN data stage: packets are gathered until a short one, a full buffer, a halt or the
        timeout. */
    method InTransfer(r: Submit) returns (flow: Flow)
      requires Valid() && r.ep < 4 && r.direction == 1 && st.link.gathered == []
      modifies Objects()
      ensures Valid() && Run(st, flow) == Gather(Ticked(old(st)), r, Capacity(r), Now(old(st)))
    {
      hide GatherTurn, FinishIn, AgreesAll;
      var capacity := if r.length > TX_BUFFER_BYTES then TX_BUFFER_BYTES else r.length;
      var bytes := new byte[TX_BUFFER_BYTES];
      var length: nat := 0;
      var status := STATUS_OK;
      var started := Tick();
      ghost var s0 := st;
      var done := false;
      while length < capacity && !done
        invariant length <= capacity <= TX_BUFFER_BYTES
        invariant Valid() && bytes[..length] == st.link.gathered
        invariant done ==> FinishIn(st, r, status) == Gather(s0, r, capacity, started)
        invariant !done ==> status == STATUS_OK && Gather(st, r, capacity, started) == Gather(s0, r, capacity, started)
        decreases |st.script|
      {
        var outcome;
        GatherTurnBounded(st, r, capacity, started);
        flow, length, outcome := GatherStep(r, bytes, length, capacity, started);
        if flow.IsFailure() {
          return;
        }
        if outcome.Some? {
          status, done := outcome.value, true;
        }
      }
      flow := InStatus(r, status, bytes[..length]);
    }

    /** The status stage of a control IN, and the reply. */
    method InStatus(r: Submit, status: uint32, payload: seq<byte>) returns (flow: Flow)
      requires Valid() && r.ep < 4 && r.direction == 1
      requires payload == st.link.gathered && |payload| <= Capacity(r)
      modifies Objects()
      ensures Valid() && Run(st, flow) == FinishIn(old(st), r, status)
    {
      hide Call, Answer;
      if r.ep == 0 {
        :- CallDevice(OutData(0, []));
      }
      flow := SendReply(r, status, |payload|, payload);
    }

    /** endpoints[ep].intr_in = request; host_ready = 1 */
    method Park(r: Submit)
      requires Valid() && r.ep < 4
      modifies Objects()
      ensures Valid() && st == ParkedState(old(st), r)
    {
      hide Holds;
      endpoints[r.ep] := endpoints[r.ep].(intrIn := r, hostReady := true);
      st := ParkedState(st, r);
    }

    ghost method Begin(r: Submit)
      requires Valid()
      modifies Objects()
      ensures Valid() && st == Begun(old(st), r)
    {
      st := Begun(st, r);
    }

    /** rust_submit */
    method RustSubmit() returns (flow: Flow)
      requires Valid()
      modifies Objects()
      ensures Valid() && Run(st, flow) == ServeSubmit(old(st))
    {
      hide Transfer, DecodeSubmit, AgreesAll;
      if !rustAttached {
        return Fatal;
      }
      var body := new byte[BODY_BYTES];
      :- ReadExact(body, BODY_BYTES);
      assert body[..] == body[..BODY_BYTES];
      var r := DecodeSubmit(body[..]);
      Begin(r);
      if r.ep >= 4 || (r.direction == 0 && r.length > TX_BUFFER_BYTES) || r.direction > 1 {
        return Fatal;
      }
      AgreesAt(r.ep);
      if r.ep != 0 && endpoints[r.ep].mps == 0 {
        return Fatal;
      }
      flow := ServeRequest(r);
    }

    /** The rest of rust_submit. */
    method ServeRequest(r: Submit) returns (flow: Flow)
      requires Valid() && Acceptable(st, r) && st.link.gathered == []
      modifies Objects()
      ensures Valid() && Run(st, flow) == Transfer(old(st), r)
    {
      hide Call, OutLoop, Gather, Answer, AgreesAll;
      AgreesAt(r.ep);
      if r.ep != 0 && endpoints[r.ep].kind == KIND_INTR && r.direction == 1 {
        if endpoints[r.ep].hostReady {
          flow := SendReply(r, NEG_EBUSY, 0, []);
          return;
        }
        if !rustPending[r.ep] && !rustHalted[r.ep, 1] {
          Park(r);
          return Continue;
        }
      }
      if r.ep == 0 {
        ClearPending(0, Discarded(NewSetup));
        CallLink(st, SetupStage(r.setup));
        :- CallDevice(SetupStage(r.setup));
      }
      if r.direction == 0 {
        flow := OutTransfer(r);
      } else {
        flow := InTransfer(r);
      }
    }

    // ------------------------------------------------------------------ unlink

    /** endpoint_mark_ready(ep, 0) */
    method MarkNotReady(ep: Ep)
      requires Valid()
      modifies Objects()
      ensures Valid() && st == SetPort(old(st), ep, Unparked(old(st).ports[ep]))
    {
      hide Holds;
      endpoints[ep] := endpoints[ep].(hostReady := false);
      st := SetPort(st, ep, Unparked(st.ports[ep]));
    }

    /** The endpoints whose last interrupt request has the sequence number. */
    method FindTargets(target: uint32) returns (status: uint32, unlinked: array<bool>)
      requires Valid()
      ensures fresh(unlinked) && unlinked.Length == 4
      ensures forall ep: Ep :: unlinked[ep] == (st.ports[ep].endpoint.intrIn.seqNum == target)
      ensures status == if exists ep: Ep :: st.ports[ep].endpoint.intrIn.seqNum == target then 0x1_0000_0000 - 104 else 0
      ensures status == UnlinkStatus(st.ports, target)
    {
      hide AgreesAll;
      status := STATUS_OK;
      unlinked := new bool[4](_ => false);
      var ep := 0;
      while ep != 4
        invariant 0 <= ep <= 4
        invariant forall e: Ep :: unlinked[e] == (e < ep && st.ports[e].endpoint.intrIn.seqNum == target)
        invariant status == if exists e :: 0 <= e < ep && st.ports[e].endpoint.intrIn.seqNum == target
                            then NEG_ECONNRESET else STATUS_OK
        modifies unlinked
      {
        AgreesAt(ep);
        if endpoints[ep].intrIn.seqNum == target {
          status := NEG_ECONNRESET;
          unlinked[ep] := true;
        }
        ep := ep + 1;
      }
    }

    /** The second loop of usbip_unlink. */
    method ClearReady(unlinked: array<bool>, ghost target: uint32)
      requires Valid() && unlinked !in Objects() && unlinked.Length == 4
      requires forall ep: Ep :: unlinked[ep] == (st.ports[ep].endpoint.intrIn.seqNum == target)
      modifies Objects()
      ensures Valid() && st == UnlinkedState(old(st), target)
    {
      hide Valid, CancelParked;
      ghost var ps := st.ports;
      var ep := 0;
      while ep != 4
        invariant 0 <= ep <= 4 && Valid()
        invariant st == old(st).(ports := st.ports)
        invariant forall e: Ep :: st.ports[e] == if e < ep then UnlinkPort(ps[e], target) else ps[e]
      {
        if unlinked[ep] {
          MarkNotReady(ep);
        }
        ep := ep + 1;
      }
      NoteCancels(UnlinkCancels(ps[0], target) + UnlinkCancels(ps[1], target)
                  + UnlinkCancels(ps[2], target) + UnlinkCancels(ps[3], target));
      assert st.ports == UnlinkedState(old(st), target).ports;
    }

    /** usbip_unlink */
    method UsbipUnlink() returns (flow: Flow)
      requires Valid()
      modifies Objects()
      ensures Valid() && Run(st, flow) == ServeUnlink(old(st))
    {
      hide Valid, DecodeUnlink, EncodeReply, UnlinkedState, UnlinkStatus;
      var body := new byte[BODY_BYTES];
      :- ReadExact(body, BODY_BYTES);
      assert body[..] == body[..BODY_BYTES];
      var u := DecodeUnlink(body[..]);
      var status, unlinked := FindTargets(u.target);
      SendFrame(st, RetUnlink(u.seqNum, status));
      :- SendUnlinkReply(u.seqNum, status);
      ClearReady(unlinked, u.target);
      return Continue;
    }

    /** usbip_tx_unlink */
    method SendUnlinkReply(seqNum: uint32, status: uint32) returns (flow: Flow)
      requires Valid()
      modifies Objects()
      ensures Valid() && Run(st, flow) == Send(old(st), RetUnlink(seqNum, status))
    {
      hide Valid, RetUnlinkBody, WriteBytes;
      var body := RetUnlinkBody(seqNum, status);
      WriteInPieces(st, RET_UNLINK, body);
      :- WriteExact(RET_UNLINK);
      :- WriteExact(body);
      NoteReply(RetUnlink(seqNum, status));
      return Continue;
    }

    // ------------------------------------------------- operations and dispatch

    /** usbip_devlist */
    method UsbipDevList() returns (flow: Flow)
      requires Valid()
      modifies Objects()
      ensures Valid() && Run(st, flow) == ServeDevList(old(st))
    {
      hide AgreesAll;
      var status := new byte[4];
      :- ReadExact(status, 4);
      :- WriteExact(RET_DEVLIST + tables.devlist);
      NoteReply(RetDevList(tables.devlist));
      return Continue;
    }

    /** usbip_import */
    method UsbipImport() returns (flow: Flow)
      requires Valid()
      modifies Objects()
      ensures Valid() && Run(st, flow) == ServeImport(old(st))
    {
      hide AgreesAll, Attach;
      var status := new byte[4];
      :- ReadExact(status, 4);
      var busId := new byte[32];
      :- ReadExact(busId, 32);
      var reply := Zeros(4) + tables.path + busId[..32] + tables.device;
      :- WriteExact(RET_IMPORT + reply);
      NoteReply(RetImport(reply));
      flow := RustAttach();
    }

    ghost method NoteHead()
      requires Valid()
      modifies Objects()
      ensures Valid() && st == old(st).(link := old(st).link.(heads := old(st).link.heads + [|old(st).link.received|]))
    {
      st := st.(link := st.link.(heads := st.link.heads + [|st.link.received|]));
    }

    /** The command switch of usbip_loop. */
    method DispatchCommand() returns (flow: Flow)
      requires Valid()
      modifies Objects()
      ensures Valid() && Run(st, flow) == Dispatch(old(st))
    {
      hide Valid, ServeDevList, ServeImport, ServeSubmit, ServeUnlink;
      NoteHead();
      var command := new byte[4];
      ghost var s0 := st;
      :- ReadExact(command, 4);
      assert command[..] == command[..4] == s0.link.input[..4];
      if command[2] == 0x80 && command[3] == 0x05 {
        flow := UsbipDevList();
      } else if command[2] == 0x80 && command[3] == 0x03 {
        flow := UsbipImport();
      } else if command[0] == 0x00 && command[1] == 0x00 && command[2] == 0x00 && command[3] == 0x01 {
        assert command[..] == CMD_SUBMIT;
        flow := RustSubmit();
      } else if command[0] == 0x00 && command[1] == 0x00 && command[2] == 0x00 && command[3] == 0x02 {
        assert command[..] == CMD_UNLINK;
        flow := UsbipUnlink();
      } else {
        flow := Aborted;
      }
    }

    /** poll(2) on the socket: None when the observation of the run ends. */
    method PollSocket() returns (p: Option<Poll>)
      requires Valid()
      modifies Objects()
      ensures Valid()
      ensures p == if old(st).link.polls == [] then None else Some(old(st).link.polls[0])
      ensures st == if old(st).link.polls == [] then old(st) else Polled(old(st))
    {
      if conn.polls == [] {
        return None;
      }
      p := Some(conn.polls[0]);
      conn.polls := conn.polls[1..];
      st := Polled(st);
    }

    /** usbip_loop */
    method UsbipLoop() returns (flow: Flow)
      requires Valid()
      modifies Objects()
      ensures Valid() && Run(st, flow) == Serve(old(st))
    {
      hide Valid, DeviceLoop, CompleteInterrupts, Dispatch;
      while true
        invariant Valid() && Serve(st) == Serve(old(st))
        decreases |st.script|
      {
        flow := CompatDeviceLoop();
        if flow.IsFailure() {
          return;
        }
        flow := RustCompleteInterrupt();
        if flow.IsFailure() {
          return;
        }
        var available := PollSocket();
        if available.None? {
          return Exhausted;
        }
        if available.value.Failed? {
          return Fatal;
        }
        if available.value.Nothing? {
          continue;
        }
        flow := DispatchCommand();
        if flow.IsFailure() {
          return;
        }
      }
    }

    // ---------------------------------------------------------------- main()

    method Accept(peer: Connections.Peer)
      requires Valid()
      modifies Objects()
      ensures Valid() && st == Connections.Accepted(old(st), peer)
    {
      hide Holds;
      conn.Reopen(peer.input, peer.budget, peer.polls);
      ghost var ps := st.ports;
      st := Connections.Accepted(st, peer);
      forall ep: Ep ensures Agrees(ep, st.ports[ep]) {
        assert old(Agrees(ep, ps[ep]));
        assert st.ports[ep] == Connections.FreshPort(ps[ep]);
      }
    }

    /** The accept loop of main(): what each peer is sent. */
    method ServePeers(peers: seq<Connections.Peer>) returns (sent: seq<seq<byte>>)
      requires Valid()
      modifies Objects()
      ensures Valid()
      ensures
        var zs := Connections.Sessions(old(st), peers);
        |sent| == |zs| && forall k :: 0 <= k < |zs| ==> sent[k] == zs[k].end.link.sent
    {
      hide Valid, Serve, Disconnect, Connections.Accepted, Connections.Sessions;
      sent := [];
      var k := 0;
      ghost var zs: seq<Connections.Session> := [];
      while k < |peers|
        invariant Valid() && 0 <= k <= |peers|
        invariant Connections.Sessions(old(st), peers) == zs + Connections.Sessions(st, peers[k..])
        invariant |sent| == |zs| && forall i :: 0 <= i < |zs| ==> sent[i] == zs[i].end.link.sent
      {
        Connections.SessionsStep(st, peers[k..]);
        assert peers[k..][1..] == peers[k + 1..];
        Accept(peers[k]);
        ghost var start := st;
        var flow := UsbipLoop();
        SocketAgrees();
        sent := sent + [conn.sent];
        zs := zs + [Connections.Session(start, st)];
        if !flow.Fatal? {
          return;
        }
        flow := RustDisconnect();
        if flow.IsFailure() {
          return;
        }
        k := k + 1;
      }
      NoSessions();
    }

    lemma NoSessions()
      ensures Connections.Sessions(st, []) == []
    {}

    lemma SocketAgrees()
      requires Valid()
      ensures conn.sent == st.link.sent
    {}
  }

  /** main(): what every peer is sent is fixed by the device, the clock and what the peers send. How
      the network splits the streams into reads and writes does not matter. */
  method RunServer(clock: nat -> nat, script: seq<seq<Callback>>, tables: Tables, peers: seq<Connections.Peer>)
    returns (sent: seq<seq<byte>>)
    ensures
      var zs := Connections.ServerRun(clock, script, tables, peers);
      |sent| == |zs| && forall k :: 0 <= k < |zs| ==> sent[k] == zs[k].end.link.sent
  {
    hide Connections.Sessions, Connections.PowerOn, Call;
    var server := new UsbIpServer(clock, script, tables);
    var flow := server.CallDevice(HostOpen);
    if flow.IsFailure() {
      return [];
    }
    sent := server.ServePeers(peers);
  }
}
