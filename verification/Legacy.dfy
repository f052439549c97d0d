/** The transmit buffer of the historical backend: USBD_LL_Transmit appends to a fixed array, and
    usbip_tx_submit sends it whole (control, bulk) or slice by slice (interrupt). */
module Legacy {
  import opened Bytes
  import opened Sockets

  const BUFFER_BYTES: nat := 4096

  type Buffer = b: seq<byte> | |b| == 4096 ghost witness Zeros(4096)

  /** The transmit fields of struct Endpoint. `requested` is intr_in.transfer_buffer_length. */
  datatype Fifo = Fifo(
    interrupt: bool, bulk: bool, buffer: Buffer, size: nat, pos: nat,
    zlpPending: bool, hostReady: bool, requested: uint32)

  /** What is accepted and not yet sent. */
  function Queue(f: Fifo): seq<byte>
    requires f.pos <= f.size <= BUFFER_BYTES
  {
    f.buffer[f.pos..f.size]
  }

  predicate Sound(f: Fifo) {
    && f.pos <= f.size <= BUFFER_BYTES
    && (f.interrupt ==> !f.bulk)
    && (f.size != 0 ==> f.pos < f.size)
    && (!f.interrupt ==> f.pos == 0)
  }

  /** USBD_LL_Transmit appends without a bounds check: the caller must know that the packet fits
      behind everything written since the buffer was last cleared. */
  predicate RoomFor(f: Fifo, bytes: seq<byte>) {
    f.size + |bytes| <= BUFFER_BYTES
  }

  function Transmitted(f: Fifo, bytes: seq<byte>): Fifo
    requires f.size <= BUFFER_BYTES && RoomFor(f, bytes)
  {
    if bytes != []
    then f.(buffer := f.buffer[..f.size] + bytes + f.buffer[f.size + |bytes|..], size := f.size + |bytes|)
    else if f.bulk then f.(zlpPending := true)
    else f
  }

  /** endpoint_clear */
  function Cleared(f: Fifo): Fifo {
    f.(size := 0, pos := 0, zlpPending := false, hostReady := false)
  }

  /** Where usbip_tx_submit starts reading, and how many bytes it sends. */
  function Start(f: Fifo): nat {
    if f.interrupt then f.pos else 0
  }

  function Length(f: Fifo): nat {
    if f.interrupt then f.requested else f.size
  }

  /** The slice lies inside the array. */
  predicate Readable(f: Fifo) {
    Start(f) + Length(f) <= BUFFER_BYTES
  }

  function Payload(f: Fifo): seq<byte>
    requires Readable(f)
  {
    f.buffer[Start(f)..Start(f) + Length(f)]
  }

  function Submitted(f: Fifo): Fifo
    requires Readable(f)
  {
    var pos := Start(f) + Length(f);
    if pos == f.size then Cleared(f) else f.(pos := pos)
  }

  // ------------------------------------------------------------- one operation

  lemma {:induction false} TransmitAppends(f: Fifo, bytes: seq<byte>)
    requires Sound(f) && RoomFor(f, bytes)
    ensures Sound(Transmitted(f, bytes))
    ensures Queue(Transmitted(f, bytes)) == Queue(f) + bytes
    ensures
      var g := Transmitted(f, bytes);
      && g.zlpPending == (f.zlpPending || (bytes == [] && f.bulk)) && g.hostReady == f.hostReady
      && g.requested == f.requested && g.interrupt == f.interrupt && g.bulk == f.bulk
  {
    if bytes == [] {
      assert Queue(f) + bytes == Queue(f);
    } else {
      var g := Transmitted(f, bytes);
      assert g.buffer[f.pos..g.size] == f.buffer[f.pos..f.size] + bytes;
    }
  }

  /** A submit takes a prefix of the queue exactly when the host asks for no more than is queued; a
      longer interrupt request is answered with stale bytes from beyond the queue. The endpoint is
      cleared exactly when the queue has become empty. */
  lemma {:induction false} SubmitTakesPrefix(f: Fifo)
    requires Sound(f) && Readable(f)
    ensures Payload(f) <= Queue(f) <==> Length(f) <= |Queue(f)|
    ensures Length(f) <= |Queue(f)| ==>
              && Sound(Submitted(f))
              && Payload(f) + Queue(Submitted(f)) == Queue(f)
              && var g := Submitted(f);
                 if Queue(g) == [] then g == f.(size := 0, pos := 0, zlpPending := false, hostReady := false)
                 else g == f.(pos := f.pos + Length(f))
  {
    if Length(f) <= |Queue(f)| {
      var n := Start(f) + Length(f);
      assert f.buffer[f.pos..f.size] == f.buffer[f.pos..n] + f.buffer[n..f.size];
      assert Payload(f) == f.buffer[f.pos..n];
    }
  }

  // ------------------------------------------------------------------ any run

  /** What can happen to an interrupt or bulk endpoint: the device transmits; the host asks for data
      (and, when nothing is ready yet, the device may transmit before the request is noted); or an
      OUT transfer ends, after which a ready interrupt endpoint is served with the saved request; or the
      host unlinks the saved request. */
  datatype Event =
    | DeviceTransmits(bytes: seq<byte>)
    | HostAsks(length: uint32, meanwhile: seq<byte>)
    | OutEnds
    | HostUnlinks

  /** endpoint_ready */
  predicate Ready(f: Fifo) {
    f.hostReady && f.size != 0
  }

  /** Whether the event makes the server send from the buffer. */
  predicate Sends(f: Fifo, e: Event) {
    match e
    case DeviceTransmits(_) => false
    case HostAsks(_, _) => !f.interrupt || Ready(f)
    case OutEnds => f.interrupt && Ready(f)
    case HostUnlinks => false
  }

  function Asked(f: Fifo, e: Event): Fifo {
    if e.HostAsks? && f.interrupt then f.(requested := e.length) else f
  }

  /** The bytes the device hands over during the event. */
  function Gives(f: Fifo, e: Event): seq<byte> {
    match e
    case DeviceTransmits(bytes) => bytes
    case HostAsks(_, meanwhile) => if Sends(f, e) then [] else meanwhile
    case _ => []
  }

  predicate Legal(f: Fifo, e: Event) {
    && f.size <= BUFFER_BYTES && RoomFor(f, Gives(f, e))
    && (Sends(f, e) ==> Readable(Asked(f, e)))
  }

  function After(f: Fifo, e: Event): Fifo
    requires Legal(f, e)
  {
    var g := Asked(f, e);
    if Sends(f, e) then Submitted(g)
    else
      match e
      case DeviceTransmits(bytes) => Transmitted(g, bytes)
      case HostAsks(_, meanwhile) => Transmitted(g, meanwhile).(hostReady := true)
      case OutEnds => g
      case HostUnlinks => g.(hostReady := false)
  }

  function Sent(f: Fifo, e: Event): seq<byte>
    requires Legal(f, e)
  {
    if Sends(f, e) then Payload(Asked(f, e)) else []
  }

  /** No interrupt request is longer than what is queued when it is served. */
  predicate Fits(f: Fifo, e: Event) {
    Legal(f, e) && (Sends(f, e) ==> Length(Asked(f, e)) <= f.size - f.pos)
  }

  predicate AllFit(f: Fifo, es: seq<Event>)
    decreases |es|
  {
    es != [] ==> Fits(f, es[0]) && AllFit(After(f, es[0]), es[1..])
  }

  function End(f: Fifo, es: seq<Event>): Fifo
    requires AllFit(f, es)
    decreases |es|
  {
    if es == [] then f else End(After(f, es[0]), es[1..])
  }

  function AllSent(f: Fifo, es: seq<Event>): seq<byte>
    requires AllFit(f, es)
    decreases |es|
  {
    if es == [] then [] else Sent(f, es[0]) + AllSent(After(f, es[0]), es[1..])
  }

  function AllGiven(f: Fifo, es: seq<Event>): seq<byte>
    requires AllFit(f, es)
    decreases |es|
  {
    if es == [] then [] else Gives(f, es[0]) + AllGiven(After(f, es[0]), es[1..])
  }

  lemma {:induction false} EventConserves(f: Fifo, e: Event)
    requires Sound(f) && Fits(f, e)
    ensures Sound(After(f, e))
    ensures Sent(f, e) + Queue(After(f, e)) == Queue(f) + Gives(f, e)
  {
    var g := Asked(f, e);
    if Sends(f, e) {
      SubmitTakesPrefix(g);
      assert Queue(f) + [] == Queue(f);
    } else {
      TransmitAppends(g, Gives(f, e));
      assert [] + Queue(After(f, e)) == Queue(After(f, e));
    }
  }

  lemma {:induction false} Regroup(a: seq<byte>, b: seq<byte>, c: seq<byte>, m: seq<byte>, q: seq<byte>, x: seq<byte>, y: seq<byte>)
    requires b + c == m + y && a + m == q + x
    ensures a + b + c == q + (x + y)
  {
    assert a + b + c == a + (b + c);
    assert a + (m + y) == a + m + y;
    assert q + x + y == q + (x + y);
  }

  /** The array buffer is a queue: over any run, the bytes sent followed by the bytes still queued are
      the bytes queued at first followed by the bytes accepted. */
  lemma {:induction false} BufferIsAQueue(f: Fifo, es: seq<Event>)
    requires Sound(f) && AllFit(f, es)
    ensures Sound(End(f, es))
    ensures AllSent(f, es) + Queue(End(f, es)) == Queue(f) + AllGiven(f, es)
    decreases |es|
  {
    if es == [] {
      assert [] + Queue(f) == Queue(f) + [];
    } else {
      var g := After(f, es[0]);
      EventConserves(f, es[0]);
      BufferIsAQueue(g, es[1..]);
      hide Fits, Sound, After, Sent, Queue, Gives;
      Regroup(Sent(f, es[0]), AllSent(g, es[1..]), Queue(End(g, es[1..])),
              Queue(g), Queue(f), Gives(f, es[0]), AllGiven(g, es[1..]));
    }
  }

  /** When the server sends, and what: a bulk or control request takes the queue; an interrupt request is
      served at once if an earlier one still waits and there is data, and is noted otherwise; the end of an
      OUT transfer serves a noted request if there is data; an unlinked request is not served. */
  lemma {:induction false} EventMeaning(f: Fifo, e: Event)
    requires Sound(f) && Fits(f, e)
    ensures
      var g := After(f, e);
      var waiting := f.hostReady && f.size != 0;
      match e
      case DeviceTransmits(bytes) => Sent(f, e) == [] && Queue(g) == Queue(f) + bytes && g.hostReady == f.hostReady
      case HostAsks(n, meanwhile) =>
        if !f.interrupt then Sent(f, e) == Queue(f) && Queue(g) == [] && g.size == 0
        else if waiting then |Sent(f, e)| == n && Sent(f, e) + Queue(g) == Queue(f) && g.requested == n
        else Sent(f, e) == [] && Queue(g) == Queue(f) + meanwhile && g.hostReady && g.requested == n
      case OutEnds =>
        if f.interrupt && waiting then |Sent(f, e)| == f.requested && Sent(f, e) + Queue(g) == Queue(f)
        else Sent(f, e) == [] && g == f
      case HostUnlinks => Sent(f, e) == [] && g == f.(hostReady := false)
  {
    var g := Asked(f, e);
    if Sends(f, e) {
      SubmitTakesPrefix(g);
    } else {
      TransmitAppends(g, Gives(f, e));
    }
  }

  /** A report of the size asked for reaches the host: with the next request, or at the end of the next OUT
      transfer, unless the request was unlinked before. */
  lemma {:induction false} ReportIsDelivered(f: Fifo, n: uint32, report: seq<byte>)
    requires Sound(f) && f.interrupt && f.size == 0 && |report| == n && 0 < n <= BUFFER_BYTES
    ensures AllFit(f, [HostAsks(n, report), OutEnds]) && AllSent(f, [HostAsks(n, report), OutEnds]) == report
    ensures AllFit(f, [HostAsks(n, report), HostAsks(n, [])]) && AllSent(f, [HostAsks(n, report), HostAsks(n, [])]) == report
    ensures AllFit(f, [HostAsks(n, report), HostUnlinks, OutEnds]) && AllSent(f, [HostAsks(n, report), HostUnlinks, OutEnds]) == []
  {
    hide AllFit, AllSent, Fits, Sent, After, Sound, Queue;
    var ask := HostAsks(n, report);
    ReportWaits(f, n, report);
    var g := After(f, ask);
    OneSent(g, OutEnds);
    OneSent(g, HostAsks(n, []));
    OneSent(After(g, HostUnlinks), OutEnds);
    TwoEvents(f, ask, [OutEnds]);
    TwoEvents(f, ask, [HostAsks(n, [])]);
    TwoEvents(g, HostUnlinks, [OutEnds]);
    TwoEvents(f, ask, [HostUnlinks, OutEnds]);
    assert [ask] + [OutEnds] == [ask, OutEnds] && [ask] + [HostAsks(n, [])] == [ask, HostAsks(n, [])];
    assert [HostUnlinks] + [OutEnds] == [HostUnlinks, OutEnds] && [ask] + [HostUnlinks, OutEnds] == [ask, HostUnlinks, OutEnds];
    ghost var none: seq<byte> := [];
    assert none + report == report && none + none == none && none + (none + none) == none;
  }

  /** The request is noted with the report behind it: whatever serves it sends exactly the report. */
  lemma {:induction false} ReportWaits(f: Fifo, n: uint32, report: seq<byte>)
    requires Sound(f) && f.interrupt && f.size == 0 && |report| == n && 0 < n <= BUFFER_BYTES
    ensures Fits(f, HostAsks(n, report)) && Sent(f, HostAsks(n, report)) == []
    ensures
      var g := After(f, HostAsks(n, report));
      && Fits(g, OutEnds) && Sent(g, OutEnds) == report
      && Fits(g, HostAsks(n, [])) && Sent(g, HostAsks(n, [])) == report
      && Fits(g, HostUnlinks) && Sent(g, HostUnlinks) == []
      && Fits(After(g, HostUnlinks), OutEnds) && Sent(After(g, HostUnlinks), OutEnds) == []
  {
    var ask := HostAsks(n, report);
    TransmitAppends(Asked(f, ask), report);
    var g := After(f, ask);
    assert Queue(g) == report && g.hostReady && g.requested == n && g.size == n && g.pos == 0;
  }

  lemma {:induction false} OneSent(f: Fifo, e: Event)
    requires Fits(f, e)
    ensures AllFit(f, [e]) && AllSent(f, [e]) == Sent(f, e)
  {
    assert [e][1..] == [];
    assert Sent(f, e) + [] == Sent(f, e);
  }

  lemma {:induction false} TwoEvents(f: Fifo, e: Event, es: seq<Event>)
    requires Fits(f, e) && AllFit(After(f, e), es)
    ensures AllFit(f, [e] + es) && AllSent(f, [e] + es) == Sent(f, e) + AllSent(After(f, e), es)
  {
    assert ([e] + es)[0] == e && ([e] + es)[1..] == es;
  }

  // ------------------------------------------------------- fixed-size reports

  /** An interrupt endpoint whose reports and requests all have `n` bytes. */
  predicate Regular(f: Fifo, n: uint32) {
    && Sound(f) && f.interrupt && n > 0
    && (f.size - f.pos) % n == 0
    && (f.hostReady ==> f.requested == n)
  }

  predicate FixedSize(e: Event, n: uint32) {
    match e
    case DeviceTransmits(bytes) => |bytes| == n
    case HostAsks(length, meanwhile) => length == n && (meanwhile == [] || |meanwhile| == n)
    case _ => true
  }

  lemma {:induction false} PositiveMultiple(a: int, n: nat)
    requires 0 < n && 0 < a && a % n == 0
    ensures n <= a
  {
    var q := a / n;
    assert a == n * q && q > 0;
    assert n * q == n * (q - 1) + n;
  }

  lemma {:induction false} WholeReports(f: Fifo, n: uint32)
    requires Regular(f, n) && f.size != 0
    ensures f.size > f.pos && n <= f.size - f.pos
  {
    PositiveMultiple(f.size - f.pos, n);
  }

  /** Events that only need room in the array. */
  predicate HasRoom(f: Fifo, e: Event) {
    f.size <= BUFFER_BYTES && RoomFor(f, Gives(f, e))
  }

  lemma {:induction false} RegularStep(f: Fifo, e: Event, n: uint32)
    requires Regular(f, n) && FixedSize(e, n) && HasRoom(f, e)
    ensures Fits(f, e) && Regular(After(f, e), n)
  {
    var g := Asked(f, e);
    if Sends(f, e) {
      WholeReports(f, n);
      SubmitTakesPrefix(g);
      ModStep(f.size - f.pos, n);
    } else {
      TransmitAppends(g, Gives(f, e));
      if Gives(f, e) != [] {
        ModStep(f.size - f.pos + n, n);
      }
    }
  }

  predicate AllHaveRoom(f: Fifo, es: seq<Event>)
    decreases |es|
  {
    es != [] ==> HasRoom(f, es[0]) && (Fits(f, es[0]) ==> AllHaveRoom(After(f, es[0]), es[1..]))
  }

  /** With fixed-size reports the condition of BufferIsAQueue always holds: a served interrupt request
      never asks for more than is queued. */
  lemma {:induction false} FixedReportsFit(f: Fifo, es: seq<Event>, n: uint32)
    requires Regular(f, n) && AllHaveRoom(f, es)
    requires forall i :: 0 <= i < |es| ==> FixedSize(es[i], n)
    ensures AllFit(f, es)
    decreases |es|
  {
    if es != [] {
      RegularStep(f, es[0], n);
      FixedReportsFit(After(f, es[0]), es[1..], n);
    }
  }

  // ------------------------------------------------------------ as it runs

  class TxEndpoint {
    const txBuffer: array<byte>
    const interrupt: bool
    const bulk: bool
    var txSize: nat
    var txPos: nat
    var txZlpPending: bool
    var hostReady: bool
    var requested: uint32     // intr_in.transfer_buffer_length

    ghost predicate Valid()
      reads this, txBuffer
    {
      txBuffer.Length == BUFFER_BYTES && Sound(Abs())
    }

    ghost function Abs(): Fifo
      requires txBuffer.Length == BUFFER_BYTES
      reads this, txBuffer
    {
      Fifo(interrupt, bulk, txBuffer[..], txSize, txPos, txZlpPending, hostReady, requested)
    }

    constructor (interrupt: bool, bulk: bool)
      requires interrupt ==> !bulk
      ensures Valid() && fresh(txBuffer) && Queue(Abs()) == []
    {
      this.interrupt, this.bulk := interrupt, bulk;
      txBuffer := new byte[BUFFER_BYTES](_ => 0);
      txSize, txPos, txZlpPending, hostReady, requested := 0, 0, false, false, 0;
    }

    /** USBD_LL_Transmit: traffic before initialisation is dropped. */
    method Transmit(initialized: bool, bytes: seq<byte>)
      requires Valid() && RoomFor(Abs(), bytes)
      modifies this, txBuffer
      ensures Valid()
      ensures Abs() == if initialized then Transmitted(old(Abs()), bytes) else old(Abs())
    {
      if !initialized {
        return;
      }
      TransmitAppends(Abs(), bytes);
      if bytes != [] {
        forall i | 0 <= i < |bytes| {
          txBuffer[txSize + i] := bytes[i];
        }
        txSize := txSize + |bytes|;
        assert txBuffer[..] == old(txBuffer[..txSize]) + bytes + old(txBuffer[txSize + |bytes|..]);
      } else if bulk {
        txZlpPending := true;
      }
    }

    /** endpoint_clear */
    method Clear()
      requires txBuffer.Length == BUFFER_BYTES
      modifies this
      ensures Abs() == Cleared(old(Abs()))
    {
      txSize, txPos, txZlpPending, hostReady := 0, 0, false, false;
    }

    /** usbip_tx_submit: what it sends after the reply header. */
    method TxSubmit() returns (payload: seq<byte>)
      requires txBuffer.Length == BUFFER_BYTES && Readable(Abs())
      modifies this
      ensures payload == Payload(old(Abs())) && Abs() == Submitted(old(Abs()))
    {
      if interrupt {
        payload := txBuffer[txPos..txPos + requested];
        txPos := txPos + requested;
      } else {
        payload := txBuffer[..txSize];
        txPos := txSize;
      }
      if txPos == txSize {
        Clear();
      }
    }

    /** The interrupt branch of usbip_submit for an IN request, and the IN request of the other types. */
    method HostIn(length: uint32, meanwhile: seq<byte>) returns (payload: seq<byte>)
      requires Valid() && Legal(Abs(), HostAsks(length, meanwhile))
      modifies this, txBuffer
      ensures txBuffer.Length == BUFFER_BYTES
      ensures payload == Sent(old(Abs()), HostAsks(length, meanwhile))
      ensures Abs() == After(old(Abs()), HostAsks(length, meanwhile))
    {
      payload := [];
      if interrupt {
        requested := length;
        if !(hostReady && txSize != 0) {
          Transmit(true, meanwhile);
          hostReady := true;
          return;
        }
      }
      payload := TxSubmit();
    }

    /** The end of an interrupt OUT transfer. */
    method IntrOutDone() returns (payload: seq<byte>)
      requires Valid() && interrupt && Legal(Abs(), OutEnds)
      modifies this
      ensures txBuffer.Length == BUFFER_BYTES
      ensures payload == Sent(old(Abs()), OutEnds) && Abs() == After(old(Abs()), OutEnds)
    {
      payload := [];
      if hostReady && txSize != 0 {
        payload := TxSubmit();
      }
    }

    /** What usbip_unlink does to an endpoint whose saved request it names. */
    method Unlink()
      requires Valid()
      modifies this`hostReady
      ensures Valid() && Abs() == After(old(Abs()), HostUnlinks)
    {
      hostReady := false;
    }
  }

  // ---------------------------------------------------------------- OUT data

  /** The sizes usbip_payload_rx delivers: each is what the device armed last, or the rest. */
  function Chunks(data: seq<byte>, rxSize: nat, rearm: nat -> nat, k: nat): (cs: seq<seq<byte>>)
    requires rxSize > 0 && forall i: nat :: rearm(i) > 0
    ensures forall i :: 0 <= i < |cs| ==> cs[i] != []
    decreases |data|
  {
    if data == [] then []
    else if |data| <= rxSize then [data]
    else [data[..rxSize]] + Chunks(data[rxSize..], rearm(k), rearm, k + 1)
  }

  /** Whatever sizes the device arms between chunks, the chunks are the host's payload, in order. */
  lemma {:induction false} ChunksConcatenate(data: seq<byte>, rxSize: nat, rearm: nat -> nat, k: nat)
    requires rxSize > 0 && forall i: nat :: rearm(i) > 0
    ensures Flatten(Chunks(data, rxSize, rearm, k)) == data
    decreases |data|
  {
    if data != [] {
      if |data| <= rxSize {
        assert [data][..0] == [];
      } else {
        var rest := Chunks(data[rxSize..], rearm(k), rearm, k + 1);
        ChunksConcatenate(data[rxSize..], rearm(k), rearm, k + 1);
        FlattenAppend([data[..rxSize]], rest);
        assert [data[..rxSize]][..0] == [];
        assert data == data[..rxSize] + data[rxSize..];
      }
    }
  }

  /** Every chunk but the last has exactly the size that was armed for it, and the last no more. */
  lemma {:induction false} ChunkSizes(data: seq<byte>, rxSize: nat, rearm: nat -> nat, k: nat, i: nat)
    requires rxSize > 0 && forall j: nat :: rearm(j) > 0
    requires i < |Chunks(data, rxSize, rearm, k)|
    ensures
      var cs := Chunks(data, rxSize, rearm, k);
      var armed := if i == 0 then rxSize else rearm(k + i - 1);
      if i < |cs| - 1 then |cs[i]| == armed else |cs[i]| <= armed
    decreases |data|
  {
    if i > 0 {
      ChunkSizes(data[rxSize..], rearm(k), rearm, k + 1, i - 1);
    }
  }

  /** usbip_payload_rx. After the k-th chunk the device arms `rearm(k)` bytes. It terminates because
      every armed size is positive; when the stream ends early it stops without a word. */
  method PayloadRx(conn: Connection, length: uint32, rxSize: nat, rearm: nat -> nat) returns (chunks: seq<seq<byte>>)
    requires rxSize > 0 && forall i: nat :: rearm(i) > 0
    modifies conn
    ensures length <= |old(conn.input)| ==>
              && chunks == Chunks(old(conn.input)[..length], rxSize, rearm, 0)
              && conn.input == old(conn.input)[length..]
    ensures length > |old(conn.input)| ==> conn.input == [] && Flatten(chunks) <= old(conn.input)
    ensures conn.sent == old(conn.sent) && conn.budget == old(conn.budget)
  {
    hide Chunks, Flatten, OnTrack;
    var remaining: nat := length;
    var armed := rxSize;
    chunks := [];
    ghost var whole := conn.input;
    ghost var all := if length <= |whole| then Chunks(whole[..length], rxSize, rearm, 0) else [];
    StartOnTrack(whole, length, armed, rearm, all);
    while remaining > 0
      invariant armed > 0 && OnTrack(whole, length, conn.input, remaining, armed, rearm, chunks, all)
      invariant conn.sent == old(conn.sent) && conn.budget == old(conn.budget)
    {
      var size := if remaining < armed then remaining else armed;
      AdvanceOnTrack(whole, length, conn.input, remaining, armed, rearm, chunks, all);
      var buffer := new byte[size];
      var ok := conn.ReadExact(buffer, size);
      if !ok {
        return;
      }
      chunks := chunks + [buffer[..size]];
      remaining := remaining - size;
      armed := rearm(|chunks| - 1);
    }
    EndOnTrack(whole, length, conn.input, armed, rearm, chunks, all);
  }

  /** After some chunks of `whole`: what is left of it, what was delivered, and what is to come. */
  ghost predicate OnTrack(whole: seq<byte>, length: nat, rest: seq<byte>, remaining: nat, armed: nat, rearm: nat -> nat,
                          chunks: seq<seq<byte>>, all: seq<seq<byte>>)
    requires armed > 0 && forall i: nat :: rearm(i) > 0
  {
    && remaining <= length && length - remaining <= |whole| && rest == whole[length - remaining..]
    && Flatten(chunks) == whole[..length - remaining]
    && (length <= |whole| ==> all == chunks + Chunks(rest[..remaining], armed, rearm, |chunks|))
  }

  lemma {:induction false} StartOnTrack(whole: seq<byte>, length: nat, armed: nat, rearm: nat -> nat, all: seq<seq<byte>>)
    requires armed > 0 && forall i: nat :: rearm(i) > 0
    requires length <= |whole| ==> all == Chunks(whole[..length], armed, rearm, 0)
    ensures OnTrack(whole, length, whole, length, armed, rearm, [], all)
  {
    hide Chunks;
    assert whole[length - length..] == whole;
  }

  lemma {:induction false} AdvanceOnTrack(whole: seq<byte>, length: nat, rest: seq<byte>, remaining: nat, armed: nat, rearm: nat -> nat,
                                          chunks: seq<seq<byte>>, all: seq<seq<byte>>)
    requires 0 < remaining && armed > 0 && forall i: nat :: rearm(i) > 0
    requires OnTrack(whole, length, rest, remaining, armed, rearm, chunks, all)
    ensures Flatten(chunks) <= whole
    ensures var size := if remaining < armed then remaining else armed;
            && (|rest| < size ==> |whole| < length)
            && (size <= |rest| ==>
                  OnTrack(whole, length, rest[size..], remaining - size, rearm(|chunks|), rearm, chunks + [rest[..size]], all))
  {
    hide Chunks, Flatten;
    var size := if remaining < armed then remaining else armed;
    if size <= |rest| {
      var read := length - remaining;
      FlattenSnoc(chunks, rest[..size]);
      assert whole[..read] + whole[read..][..size] == whole[..read + size];
      if length <= |whole| {
        Due(all, chunks, rest, remaining, armed, rearm);
      }
    }
  }

  lemma {:induction false} EndOnTrack(whole: seq<byte>, length: nat, rest: seq<byte>, armed: nat, rearm: nat -> nat,
                                      chunks: seq<seq<byte>>, all: seq<seq<byte>>)
    requires armed > 0 && forall i: nat :: rearm(i) > 0
    requires OnTrack(whole, length, rest, 0, armed, rearm, chunks, all)
    ensures length <= |whole| && chunks == all && rest == whole[length..]
  {}

  lemma {:induction false} Due(all: seq<seq<byte>>, chunks: seq<seq<byte>>, input: seq<byte>, remaining: nat, armed: nat, rearm: nat -> nat)
    requires 0 < remaining <= |input| && armed > 0 && forall i: nat :: rearm(i) > 0
    requires all == chunks + Chunks(input[..remaining], armed, rearm, |chunks|)
    ensures var size := if remaining < armed then remaining else armed;
            all == chunks + [input[..size]] + Chunks(input[size..][..remaining - size], rearm(|chunks|), rearm, |chunks| + 1)
  {
    hide Chunks;
    ChunkStep(input, remaining, armed, rearm, |chunks|);
    var size := if remaining < armed then remaining else armed;
    Behind(chunks, input[..size], Chunks(input[size..][..remaining - size], rearm(|chunks|), rearm, |chunks| + 1));
  }

  lemma {:induction false} Behind(done: seq<seq<byte>>, chunk: seq<byte>, rest: seq<seq<byte>>)
    ensures done + ([chunk] + rest) == done + [chunk] + rest
  {}

  lemma {:induction false} ChunkStep(input: seq<byte>, remaining: nat, armed: nat, rearm: nat -> nat, k: nat)
    requires 0 < remaining <= |input| && armed > 0 && forall i: nat :: rearm(i) > 0
    ensures var size := if remaining < armed then remaining else armed;
            Chunks(input[..remaining], armed, rearm, k)
              == [input[..size]] + Chunks(input[size..][..remaining - size], rearm(k), rearm, k + 1)
  {
    var size := if remaining < armed then remaining else armed;
    var data := input[..remaining];
    assert data[..size] == input[..size];
    assert data[size..] == input[size..][..remaining - size];
    if |data| <= armed {
      assert size == remaining && data[size..] == [];
      assert Chunks(data[size..], rearm(k), rearm, k + 1) == [];
      assert data == input[..size];
    }
  }
}
