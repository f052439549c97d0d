/** The state of the server: the adapter's per-endpoint records, the one-shot timer, the socket,
    and the environment (device, clock, peer) a run is observed against. */
module Model {
  import opened Bytes
  import opened Wire

  const EP_NUM := 4
  type Ep = e: nat | e < 4

  const KIND_CTRL := 0
  const KIND_BULK := 2
  const KIND_INTR := 3
  const TX_BUFFER_BYTES: nat := 4096
  const PACKET_ROW_BYTES: nat := 64
  const REQUEST_TIMEOUT_MS: nat := 10000

  /** The endpoint type ck_usb_dcd_open assigns by number. */
  function KindOf(ep: Ep): nat {
    if ep == 0 then KIND_CTRL else if ep == 3 then KIND_BULK else KIND_INTR
  }

  /** The maximum packet size ck_usb_dcd_open assigns by number. */
  function PacketBytes(ep: Ep): (n: nat)
    ensures 0 < n <= PACKET_ROW_BYTES
  {
    if ep == 0 then 16 else if ep == 1 then 8 else 64
  }

  /** The fields of struct Endpoint that the packet adapter uses. */
  datatype Endpoint = Endpoint(kind: nat, mps: nat, hostReady: bool, intrIn: Submit)

  // ------------------------------------------------------------- environment

  /** Calls the device makes into the adapter. */
  datatype Callback =
    | Open(ep: Ep, dirIn: bool)
    | Close(ep: Ep, dirIn: bool)
    | Stall(ep: Ep, dirIn: bool, halt: bool)
    | Write(ep: Ep, bytes: seq<byte>)
    | Stop
    | SetTimeout(callback: nat, milliseconds: uint16)

  /** Calls the adapter makes into the device. Each may re-enter the adapter through callbacks. */
  datatype Upcall =
    | HostOpen
    | BootReset
    | SetupStage(setup: seq<byte>)
    | InDone(ep: Ep)
    | OutData(ep: Ep, bytes: seq<byte>)
    | TimerFired(callback: nat)
    | Loop

  /** What one poll of the socket reports. */
  datatype Poll = Nothing | Ready | Failed

  /** The armed timer. `id` numbers the armings; it is not visible to the code, which compares
      `deadline` only. */
  datatype Timer = Timer(callback: nat, deadline: uint32, id: nat)

  /** A call of device_set_timeout, at the true time of its reading of the clock. */
  datatype Arming = Arming(callback: nat, milliseconds: uint16, at: nat) {
    /** The true deadline. */
    function Due(): nat { at + milliseconds }
  }

  /** A firing of the timer, at the true time of the reading that caused it. */
  datatype Firing = Firing(id: nat, callback: nat, at: nat)

  /** A call into the device, and how many replies had been written on the connection before it. */
  datatype Made = Made(upcall: Upcall, replied: nat)

  /** Operation replies are constant tables of fixed size; their contents are arbitrary here. */
  datatype Tables = Tables(path: seq<byte>, device: seq<byte>, devlist: seq<byte>)

  // ------------------------------------------------------------------ history

  /** Why a packet was thrown away: its endpoint's IN side was closed, the device stopped, a new
      SETUP arrived, or the connection ended. */
  datatype Loss = InClosed | DeviceStopped | NewSetup | ConnectionEnded

  /** What became of a packet the device wrote: its bytes went into an IN reply, it was
      acknowledged as a control status stage, or it was thrown away. */
  datatype Fate = Shipped | Acknowledged | Discarded(loss: Loss)

  /** History of one endpoint in one connection. */
  datatype Ledger = Ledger(
    wrote: seq<seq<byte>>,    // packets passed to ck_usb_dcd_write
    fates: seq<Fate>,         // what became of each, in order
    acks: nat,                // calls of ck_usb_in
    outs: seq<seq<byte>>,     // packets passed to ck_usb_out
    parked: seq<Submit>)      // interrupt requests that were ever parked

  const NEW_LEDGER := Ledger([], [], 0, [], [])

  /** The adapter's state for one endpoint, with its history. */
  datatype Port = Port(
    endpoint: Endpoint,
    pending: bool, packet: seq<byte>,        // rust_pending, rust_packet[.. rust_packet_length]
    haltedOut: bool, haltedIn: bool,         // rust_halted[ep][0], rust_halted[ep][1]
    ledger: Ledger)

  const IDLE_PORT := Port(Endpoint(0, 0, false, ZERO_SUBMIT), false, [], false, false, NEW_LEDGER)

  type Ports = p: seq<Port> | |p| == 4 witness [IDLE_PORT, IDLE_PORT, IDLE_PORT, IDLE_PORT]

  /** Why a parked request will never be answered. */
  datatype Cause = Unlinked(target: uint32) | EndpointClosed(ep: Ep) | Disconnected
  datatype Cancel = Cancel(req: Submit, cause: Cause)

  /** One connection: the peer's remaining bytes, how many bytes it will still accept, the socket's
      output, and the history of what was read and answered. */
  datatype Link = Link(
    input: seq<byte>, budget: nat, polls: seq<Poll>,
    received: seq<byte>, sent: seq<byte>,
    heads: seq<nat>,              // offset of each dispatched command in the input
    consumed: seq<Submit>,        // submits read, in order
    replies: seq<Reply>,          // replies completely written, in order
    cancelled: seq<Cancel>,
    current: Option<Submit>,      // the submit being served
    gathered: seq<byte>)          // IN bytes collected for it

  /** `script` is what the device does in each upcall still to come: any finite list, so a run
      over any script is a finite observation of a run with some device. `clock` gives the true
      time of each reading; the code sees it modulo 2^32. `calls`, `armings` and `fired` are the
      history of the device since power on. */
  datatype State = State(
    ports: Ports, attached: bool,
    timer: Option<Timer>, armings: seq<Arming>, fired: seq<Firing>, calls: seq<Made>,
    clock: nat -> nat, ticks: nat,
    script: seq<seq<Callback>>, tables: Tables, link: Link)

  /** How a step ends: it goes on, it returns -1 (the connection is closed), the observation of the
      run ends, or a C `assert` stops the process. */
  datatype Flow = Continue | Fatal | Exhausted | Aborted {
    predicate IsFailure() { !Continue? }
    function PropagateFailure(): Flow { this }
  }

  datatype Run = Run(state: State, flow: Flow) {
    predicate IsFailure() { flow.IsFailure() }
    function PropagateFailure(): Run { this }
    function Extract(): State { state }
  }

  // --------------------------------------------------------- per-port updates

  function SetPort(s: State, ep: Ep, p: Port): State {
    s.(ports := s.ports[ep := p])
  }

  /** rust_pending[ep] = 1 with a fresh packet. */
  function Staged(p: Port, bytes: seq<byte>): Port {
    p.(pending := true, packet := bytes, ledger := p.ledger.(wrote := p.ledger.wrote + [bytes]))
  }

  /** rust_pending[ep] = 0 where the packet, if any, leaves with the given fate. */
  function Retired(p: Port, fate: Fate): Port {
    if p.pending then p.(pending := false, ledger := p.ledger.(fates := p.ledger.fates + [fate])) else p
  }

  function Unparked(p: Port): Port {
    p.(endpoint := p.endpoint.(hostReady := false))
  }

  function Parked(p: Port, r: Submit): Port {
    p.(endpoint := p.endpoint.(hostReady := true, intrIn := r), ledger := p.ledger.(parked := p.ledger.parked + [r]))
  }

  // ------------------------------------------------- meaning of the histories

  /** Packets of an endpoint that went into IN replies, in order. */
  function ShippedPackets(wrote: seq<seq<byte>>, fates: seq<Fate>): seq<seq<byte>> {
    if fates == [] then []
    else
      var n := |fates| - 1;
      ShippedPackets(wrote, fates[..n]) + if fates[n].Shipped? && n < |wrote| then [wrote[n]] else []
  }

  function ShippedOf(l: Ledger): seq<seq<byte>> {
    ShippedPackets(l.wrote, l.fates)
  }

  /** Packets that were taken, one ck_usb_in each. */
  function TakenCount(fates: seq<Fate>): nat {
    if fates == [] then 0
    else TakenCount(fates[..|fates| - 1]) + if fates[|fates| - 1].Discarded? then 0 else 1
  }

  /** Payload bytes of the IN replies that answer requests to one endpoint, in order. */
  function Payloads(rs: seq<Reply>, ep: nat): seq<byte> {
    if rs == [] then []
    else
      var r := rs[|rs| - 1];
      Payloads(rs[..|rs| - 1], ep) + if r.RetSubmit? && r.req.ep == ep then r.payload else []
  }

  // Occurrences of one request in each place it can be.

  function CountRead(rs: seq<Submit>, x: Submit): nat {
    if rs == [] then 0 else CountRead(rs[..|rs| - 1], x) + if rs[|rs| - 1] == x then 1 else 0
  }

  /** RET_SUBMITs that answer the request, synchronous, delayed and refusals alike. */
  function CountAnswered(rs: seq<Reply>, x: Submit): nat {
    if rs == [] then 0
    else CountAnswered(rs[..|rs| - 1], x) + AnswersOnce(rs[|rs| - 1], x)
  }

  function AnswersOnce(r: Reply, x: Submit): nat {
    if r.RetSubmit? && r.req == x then 1 else 0
  }

  function CountCancelled(cs: seq<Cancel>, x: Submit): nat {
    if cs == [] then 0 else CountCancelled(cs[..|cs| - 1], x) + if cs[|cs| - 1].req == x then 1 else 0
  }

  function ParkedAt(p: Port, x: Submit): nat {
    if p.endpoint.hostReady && p.endpoint.intrIn == x then 1 else 0
  }

  function CountParked(ps: Ports, x: Submit): nat {
    ParkedAt(ps[0], x) + ParkedAt(ps[1], x) + ParkedAt(ps[2], x) + ParkedAt(ps[3], x)
  }

  function CountCurrent(c: Option<Submit>, x: Submit): nat {
    if c == Some(x) then 1 else 0
  }
}
