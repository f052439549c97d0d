/** What the histories mean, the parts of the global invariant, and how each elementary change of a
    port or of a connection affects them. */
module Ledgers {
  import opened Bytes
  import opened Wire
  import opened Model
  import opened Adapter

  // ------------------------------------------------- parts of the invariant

  function LastParked(l: Ledger): Submit {
    if l.parked == [] then ZERO_SUBMIT else l.parked[|l.parked| - 1]
  }

  /** Only control packets are acknowledged as status stages or overrun by a SETUP, and no packet is
      lost to the end of the connection while it lasts. */
  predicate FateOk(ep: Ep, f: Fate) {
    && (f.Acknowledged? ==> ep == 0)
    && (f.Discarded? ==> f.loss.InClosed? || f.loss.DeviceStopped? || (f.loss.NewSetup? && ep == 0))
  }

  /** One endpoint: buffer bounds, who may be parked, and a ledger that agrees with the flags. */
  ghost predicate PortOk(ep: Ep, p: Port) {
    && (p.endpoint.kind == 0 || p.endpoint.kind == KindOf(ep))
    && (p.endpoint.mps == 0 || (p.endpoint.mps == PacketBytes(ep) && p.endpoint.kind == KindOf(ep)))
    && |p.packet| <= PacketBytes(ep)
    && p.endpoint.intrIn == LastParked(p.ledger)
    && (p.endpoint.hostReady ==> 1 <= ep <= 2 && p.ledger.parked != [])
    && (forall r :: r in p.ledger.parked ==> r.ep == ep && r.direction == 1)
    && |p.ledger.wrote| == |p.ledger.fates| + (if p.pending then 1 else 0)
    && (p.pending ==> p.ledger.wrote[|p.ledger.fates|] == p.packet)
    && p.ledger.acks == TakenCount(p.ledger.fates)
    && (forall i :: 0 <= i < |p.ledger.fates| ==> FateOk(ep, p.ledger.fates[i]))
    && (forall i :: 0 <= i < |p.ledger.wrote| ==> |p.ledger.wrote[i]| <= PacketBytes(ep))
  }

  ghost predicate PortsOk(ps: Ports) {
    forall ep: Ep :: PortOk(ep, ps[ep])
  }

  predicate TablesOk(t: Tables) {
    |t.path| == 256 && |t.device| == 24 && |t.devlist| == DEVLIST_BYTES
  }

  /** A reply to a submit answers a request on an existing endpoint within the staging buffer, with a
      status its direction allows; a refusal carries no bytes, and a control OUT never fails. */
  ghost predicate ReplyOk(r: Reply) {
    && ReplyShape(r)
    && (r.RetSubmit? ==>
          && r.req.ep < 4 && r.req.direction <= 1 && |r.payload| <= Capacity(r.req)
          && (r.req.direction == 1 ==> r.status in {STATUS_OK, NEG_EBUSY, NEG_EPIPE, NEG_ETIMEDOUT})
          && (r.req.direction == 0 ==> r.status in {STATUS_OK, NEG_EPIPE})
          && (r.req.direction == 0 && r.req.ep == 0 ==> r.status == STATUS_OK)
          && (r.status == NEG_EBUSY ==> r.payload == []))
  }

  /** A cancelled request was named by the unlink, or waited on the endpoint that was closed. */
  ghost predicate CancelOk(c: Cancel) {
    match c.cause
    case Unlinked(target) => c.req.seqNum == target
    case EndpointClosed(ep) => c.req.ep == ep
    case Disconnected => true
  }

  ghost predicate RepliesOk(rs: seq<Reply>) {
    forall i :: 0 <= i < |rs| ==> ReplyOk(rs[i])
  }

  ghost predicate CancelsOk(cs: seq<Cancel>) {
    forall i :: 0 <= i < |cs| ==> CancelOk(cs[i])
  }

  /** The socket's output starts with the replies, whole and in order. */
  predicate OutputOk(rs: seq<Reply>, sent: seq<byte>) {
    EncodeReplies(rs) <= sent
  }

  predicate BufferOk(current: Option<Submit>, gathered: seq<byte>) {
    |gathered| <= TX_BUFFER_BYTES && (current.None? ==> gathered == [])
  }

  /** Every submit read is answered, parked, cancelled or being served, and only one of these. */
  ghost predicate Balanced(consumed: seq<Submit>, rs: seq<Reply>, ps: Ports, cs: seq<Cancel>, current: Option<Submit>) {
    forall x: Submit {:trigger CountRead(consumed, x)} {:trigger CountAnswered(rs, x)} ::
      CountRead(consumed, x) == CountAnswered(rs, x) + Waiting(ps, cs, x) + CountCurrent(current, x)
  }

  /** Times a request is parked or cancelled: device callbacks and unlinks only move it between. */
  function Waiting(ps: Ports, cs: seq<Cancel>, x: Submit): nat {
    CountParked(ps, x) + CountCancelled(cs, x)
  }

  ghost predicate SameWaiting(ps: Ports, cs: seq<Cancel>, qs: Ports, ds: seq<Cancel>) {
    forall x: Submit :: Waiting(ps, cs, x) == Waiting(qs, ds, x)
  }

  /** Bytes already collected for the request being served, if it reads from this endpoint. */
  function InFlight(current: Option<Submit>, gathered: seq<byte>, ep: nat): seq<byte> {
    if current.Some? && current.value.ep == ep then gathered else []
  }

  /** The bytes taken from an endpoint's packets are the bytes its IN replies carry, in order. */
  predicate ConservedAt(p: Port, rs: seq<Reply>, current: Option<Submit>, gathered: seq<byte>, ep: Ep) {
    Flatten(ShippedOf(p.ledger)) == Payloads(rs, ep) + InFlight(current, gathered, ep)
  }

  ghost predicate Conserved(ps: Ports, rs: seq<Reply>, current: Option<Submit>, gathered: seq<byte>) {
    forall ep: Ep :: ConservedAt(ps[ep], rs, current, gathered, ep)
  }

  ghost predicate LinkInv(ps: Ports, l: Link) {
    && RepliesOk(l.replies) && OutputOk(l.replies, l.sent)
    && CancelsOk(l.cancelled) && BufferOk(l.current, l.gathered)
    && Balanced(l.consumed, l.replies, ps, l.cancelled, l.current)
    && Conserved(ps, l.replies, l.current, l.gathered)
  }

  /** True time never runs backwards. */
  ghost predicate Monotone(clock: nat -> nat) {
    forall i, j :: 0 <= i <= j ==> clock(i) <= clock(j)
  }

  /** A firing came no earlier than its true deadline, and late by less than half the clock's range
      modulo that range. */
  ghost predicate FiringOk(f: Firing, armings: seq<Arming>, clock: nat -> nat) {
    && f.id < |armings| && f.callback == armings[f.id].callback
    && (Monotone(clock) ==> armings[f.id].Due() <= f.at && (f.at - armings[f.id].Due()) % TWO_32 < TWO_31)
  }

  /** The wrapped deadline belongs to the true one, and the clock has passed the arming. */
  ghost predicate ArmingOk(t: Timer, armings: seq<Arming>, ticks: nat, clock: nat -> nat) {
    && t.id < |armings| && t.callback == armings[t.id].callback && t.deadline == armings[t.id].Due() % TWO_32
    && (Monotone(clock) ==> armings[t.id].at <= clock(ticks))
  }

  /** Armings fire in order, each at most once, and none after a later one was made. */
  ghost predicate TimerOk(timer: Option<Timer>, armings: seq<Arming>, fired: seq<Firing>, ticks: nat, clock: nat -> nat) {
    && (timer.Some? ==> ArmingOk(timer.value, armings, ticks, clock))
    && (forall i, j :: 0 <= i < j < |fired| ==> fired[i].id < fired[j].id)
    && (forall i :: 0 <= i < |fired| ==>
          fired[i].id < (if timer.Some? then timer.value.id else |armings|) && FiringOk(fired[i], armings, clock))
  }

  /** The global invariant. */
  ghost predicate Inv(s: State) {
    && PortsOk(s.ports) && TablesOk(s.tables) && LinkInv(s.ports, s.link)
    && TimerOk(s.timer, s.armings, s.fired, s.ticks, s.clock)
  }

  // ------------------------------------------------- histories, one step on

  lemma {:induction false} AnsweredSnoc(rs: seq<Reply>, r: Reply, x: Submit)
    ensures CountAnswered(rs + [r], x) == CountAnswered(rs, x) + AnswersOnce(r, x)
  {
    assert (rs + [r])[..|rs|] == rs;
  }

  lemma {:induction false} ReadSnoc(rs: seq<Submit>, r: Submit, x: Submit)
    ensures CountRead(rs + [r], x) == CountRead(rs, x) + if r == x then 1 else 0
  {
    assert (rs + [r])[..|rs|] == rs;
  }

  lemma {:induction false} PayloadsSnoc(rs: seq<Reply>, r: Reply, ep: nat)
    ensures Payloads(rs + [r], ep) == Payloads(rs, ep) + if r.RetSubmit? && r.req.ep == ep then r.payload else []
  {
    assert (rs + [r])[..|rs|] == rs;
  }

  lemma {:induction false} CancelledAppend(cs: seq<Cancel>, ds: seq<Cancel>, x: Submit)
    ensures CountCancelled(cs + ds, x) == CountCancelled(cs, x) + CountCancelled(ds, x)
  {
    if ds == [] {
      assert cs + ds == cs;
    } else {
      var n := |ds| - 1;
      CancelledAppend(cs, ds[..n], x);
      assert (cs + ds)[..|cs + ds| - 1] == cs + ds[..n];
    }
  }

  lemma {:induction false} CancelParkedCount(p: Port, cause: Cause, x: Submit)
    ensures CountCancelled(CancelParked(p, cause), x) == ParkedAt(p, x)
  {
    if p.endpoint.hostReady {
      assert CancelParked(p, cause)[..0] == [];
    }
  }

  lemma {:induction false} ShippedGrow(wrote: seq<seq<byte>>, more: seq<seq<byte>>, fates: seq<Fate>)
    requires |fates| <= |wrote|
    ensures ShippedPackets(wrote + more, fates) == ShippedPackets(wrote, fates)
    decreases |fates|
  {
    if fates != [] {
      ShippedGrow(wrote, more, fates[..|fates| - 1]);
    }
  }

  lemma {:induction false} ShippedSnoc(wrote: seq<seq<byte>>, fates: seq<Fate>, f: Fate)
    ensures ShippedPackets(wrote, fates + [f]) ==
            ShippedPackets(wrote, fates) + if f.Shipped? && |fates| < |wrote| then [wrote[|fates|]] else []
    ensures TakenCount(fates + [f]) == TakenCount(fates) + if f.Discarded? then 0 else 1
  {
    assert (fates + [f])[..|fates|] == fates;
  }

  lemma {:induction false} AllShipped(w: seq<seq<byte>>, f: seq<Fate>)
    requires |f| <= |w| && forall i :: 0 <= i < |f| ==> f[i].Shipped?
    ensures ShippedPackets(w, f) == w[..|f|] && TakenCount(f) == |f|
    decreases |f|
  {
    if f != [] {
      var n := |f| - 1;
      AllShipped(w, f[..n]);
      assert w[..|f|] == w[..n] + [w[n]];
    }
  }

  // -------------------------------------------------- steps of a single port

  lemma {:induction false} RetiredOk(ep: Ep, p: Port, fate: Fate)
    requires PortOk(ep, p) && FateOk(ep, fate)
    ensures fate.Discarded? ==> PortOk(ep, Retired(p, fate))
    ensures p.pending ==> PortOk(ep, Retired(p, fate).(ledger := Retired(p, fate).ledger.(
                            acks := p.ledger.acks + if fate.Discarded? then 0 else 1)))
    ensures ShippedOf(Retired(p, fate).ledger) ==
            ShippedOf(p.ledger) + if p.pending && fate.Shipped? then [p.packet] else []
  {
    if p.pending {
      ShippedSnoc(p.ledger.wrote, p.ledger.fates, fate);
    }
  }

  lemma {:induction false} StagedOk(ep: Ep, p: Port, bytes: seq<byte>)
    requires PortOk(ep, p) && !p.pending && |bytes| <= p.endpoint.mps
    ensures PortOk(ep, Staged(p, bytes))
    ensures ShippedOf(Staged(p, bytes).ledger) == ShippedOf(p.ledger)
  {
    ShippedGrow(p.ledger.wrote, [bytes], p.ledger.fates);
    assert p.ledger.wrote + [bytes] == Staged(p, bytes).ledger.wrote;
  }

  /** The port after its packet has left and ck_usb_in has been called. */
  function Completed(p: Port, fate: Fate): Port {
    var q := Retired(p, fate);
    q.(ledger := q.ledger.(acks := q.ledger.acks + 1))
  }

  lemma {:induction false} CompletedOk(ep: Ep, p: Port, fate: Fate)
    requires PortOk(ep, p) && p.pending && !fate.Discarded? && FateOk(ep, fate)
    ensures PortOk(ep, Completed(p, fate))
    ensures ShippedOf(Completed(p, fate).ledger) == ShippedOf(p.ledger) + if fate.Shipped? then [p.packet] else []
  {
    RetiredOk(ep, p, fate);
  }

  lemma {:induction false} SetPortOk(ps: Ports, ep: Ep, p: Port)
    requires PortsOk(ps) && PortOk(ep, p)
    ensures PortsOk(ps[ep := p])
  {
    hide PortOk;
    var qs := ps[ep := p];
    forall e: Ep ensures PortOk(e, qs[e]) {
      assert PortOk(e, ps[e]);
    }
  }

  // ------------------------------------------------------ accounting, one step on

  lemma {:induction false} ParkedUpdate(ps: Ports, ep: Ep, p: Port, x: Submit)
    ensures CountParked(ps[ep := p], x) == CountParked(ps, x) + ParkedAt(p, x) - ParkedAt(ps[ep], x)
  {
    hide ParkedAt;
  }

  predicate SameSlot(p: Port, q: Port) {
    p.endpoint.hostReady == q.endpoint.hostReady && p.endpoint.intrIn == q.endpoint.intrIn
  }

  lemma {:induction false} SameParked(ps: Ports, cs: seq<Cancel>, ep: Ep, p: Port)
    requires SameSlot(ps[ep], p)
    ensures SameWaiting(ps, cs, ps[ep := p], cs)
  {
    hide CountParked, CountCancelled;
    forall x: Submit ensures Waiting(ps, cs, x) == Waiting(ps[ep := p], cs, x) {
      ParkedUpdate(ps, ep, p, x);
    }
  }

  lemma {:induction false} BalancedQuiet(consumed: seq<Submit>, rs: seq<Reply>, ps: Ports, cs: seq<Cancel>, current: Option<Submit>,
                                         qs: Ports, ds: seq<Cancel>)
    requires Balanced(consumed, rs, ps, cs, current) && SameWaiting(ps, cs, qs, ds)
    ensures Balanced(consumed, rs, qs, ds, current)
  {
    hide Waiting, CountRead, CountAnswered, CountCurrent;
  }

  lemma {:induction false} BalancedBegin(consumed: seq<Submit>, rs: seq<Reply>, ps: Ports, cs: seq<Cancel>, r: Submit)
    requires Balanced(consumed, rs, ps, cs, None)
    ensures Balanced(consumed + [r], rs, ps, cs, Some(r))
  {
    hide Waiting, CountAnswered;
    forall x: Submit
      ensures CountRead(consumed + [r], x) == CountAnswered(rs, x) + Waiting(ps, cs, x) + CountCurrent(Some(r), x)
    {
      ReadSnoc(consumed, r, x);
    }
  }

  lemma {:induction false} BalancedAnswer(consumed: seq<Submit>, rs: seq<Reply>, ps: Ports, cs: seq<Cancel>, reply: Reply)
    requires reply.RetSubmit? && Balanced(consumed, rs, ps, cs, Some(reply.req))
    ensures Balanced(consumed, rs + [reply], ps, cs, None)
  {
    hide Waiting, CountRead;
    forall x: Submit
      ensures CountRead(consumed, x) == CountAnswered(rs + [reply], x) + Waiting(ps, cs, x) + CountCurrent(None, x)
    {
      AnsweredSnoc(rs, reply, x);
    }
  }

  lemma {:induction false} BalancedOther(consumed: seq<Submit>, rs: seq<Reply>, ps: Ports, cs: seq<Cancel>, current: Option<Submit>,
                                         reply: Reply)
    requires !reply.RetSubmit? && Balanced(consumed, rs, ps, cs, current)
    ensures Balanced(consumed, rs + [reply], ps, cs, current)
  {
    hide Waiting, CountRead, CountCurrent;
    forall x: Submit
      ensures CountRead(consumed, x) == CountAnswered(rs + [reply], x) + Waiting(ps, cs, x) + CountCurrent(current, x)
    {
      AnsweredSnoc(rs, reply, x);
    }
  }

  /** The parked request of one port is answered. */
  lemma {:induction false} BalancedComplete(consumed: seq<Submit>, rs: seq<Reply>, ps: Ports, cs: seq<Cancel>, ep: Ep, q: Port, reply: Reply)
    requires Balanced(consumed, rs, ps, cs, None)
    requires ps[ep].endpoint.hostReady && !q.endpoint.hostReady
    requires reply.RetSubmit? && reply.req == ps[ep].endpoint.intrIn
    ensures Balanced(consumed, rs + [reply], ps[ep := q], cs, None)
  {
    hide CountRead, CountParked, CountCancelled;
    forall x: Submit
      ensures CountRead(consumed, x) == CountAnswered(rs + [reply], x) + Waiting(ps[ep := q], cs, x) + CountCurrent(None, x)
    {
      AnsweredSnoc(rs, reply, x);
      ParkedUpdate(ps, ep, q, x);
    }
  }

  /** The request being served is parked on a free port. */
  lemma {:induction false} BalancedPark(consumed: seq<Submit>, rs: seq<Reply>, ps: Ports, cs: seq<Cancel>, r: Submit, ep: Ep)
    requires Balanced(consumed, rs, ps, cs, Some(r)) && !ps[ep].endpoint.hostReady
    ensures Balanced(consumed, rs, ps[ep := Parked(ps[ep], r)], cs, None)
  {
    hide CountRead, CountParked, CountCancelled, CountAnswered;
    forall x: Submit
      ensures CountRead(consumed, x) ==
              CountAnswered(rs, x) + Waiting(ps[ep := Parked(ps[ep], r)], cs, x) + CountCurrent(None, x)
    {
      ParkedUpdate(ps, ep, Parked(ps[ep], r), x);
    }
  }

  // ---------------------------------------------------- conservation, one step on

  /** Replacing one port of a conserving state by one that conserves too. */
  lemma {:induction false} ConservedSet(ps: Ports, ep: Ep, p: Port, rs: seq<Reply>, current: Option<Submit>, gathered: seq<byte>)
    requires forall e: Ep :: e != ep ==> ConservedAt(ps[e], rs, current, gathered, e)
    requires ConservedAt(p, rs, current, gathered, ep)
    ensures Conserved(ps[ep := p], rs, current, gathered)
  {
    var qs := ps[ep := p];
    forall e: Ep ensures ConservedAt(qs[e], rs, current, gathered, e) {
      if e != ep {
        assert ConservedAt(ps[e], rs, current, gathered, e);
      }
    }
  }

  /** The gathered bytes move into the reply. */
  lemma {:induction false} ConservedAnswer(p: Port, rs: seq<Reply>, r: Submit, gathered: seq<byte>, status: uint32, actual: uint32, ep: Ep)
    requires ConservedAt(p, rs, Some(r), gathered, ep)
    ensures ConservedAt(p, rs + [RetSubmit(r, status, actual, gathered)], None, [], ep)
  {
    PayloadsSnoc(rs, RetSubmit(r, status, actual, gathered), ep);
  }

  lemma {:induction false} ConservedOther(p: Port, rs: seq<Reply>, r: Reply, current: Option<Submit>, gathered: seq<byte>, ep: Ep)
    requires ConservedAt(p, rs, current, gathered, ep) && !r.RetSubmit?
    ensures ConservedAt(p, rs + [r], current, gathered, ep)
  {
    PayloadsSnoc(rs, r, ep);
  }

  /** A packet moves from the slot into the gather buffer of the request being served. */
  lemma {:induction false} ConservedTake(p: Port, q: Port, rs: seq<Reply>, r: Submit, gathered: seq<byte>, ep: Ep)
    requires ConservedAt(p, rs, Some(r), gathered, ep) && r.ep == ep
    requires ShippedOf(q.ledger) == ShippedOf(p.ledger) + [p.packet]
    ensures ConservedAt(q, rs, Some(r), gathered + p.packet, ep)
  {
    FlattenSnoc(ShippedOf(p.ledger), p.packet);
    assert Payloads(rs, ep) + (gathered + p.packet) == Payloads(rs, ep) + gathered + p.packet;
  }

  /** A packet moves from the slot into the reply to the parked request. */
  lemma {:induction false} ConservedComplete(p: Port, q: Port, rs: seq<Reply>, r: Submit, status: uint32, actual: uint32, ep: Ep)
    requires ConservedAt(p, rs, None, [], ep) && r.ep == ep
    requires ShippedOf(q.ledger) == ShippedOf(p.ledger) + [p.packet]
    ensures ConservedAt(q, rs + [RetSubmit(r, status, actual, p.packet)], None, [], ep)
  {
    FlattenSnoc(ShippedOf(p.ledger), p.packet);
    PayloadsSnoc(rs, RetSubmit(r, status, actual, p.packet), ep);
  }

  lemma {:induction false} RepliesSnoc(rs: seq<Reply>, r: Reply)
    requires RepliesOk(rs) && ReplyOk(r)
    ensures RepliesOk(rs + [r])
  {}
}
