/** What holds of every run of the server: any device, any hosts, any clock, any network. */
module Guarantees {
  import opened Bytes
  import opened Wire
  import opened Model
  import opened Adapter
  import opened Ledgers
  import opened Callbacks
  import opened Invariants
  import opened Traces
  import opened Progress
  import opened Connections

  // ------------------------------------------------------------- exactly once

  predicate DistinctSeqs(rs: seq<Submit>) {
    forall i, j :: 0 <= i < j < |rs| ==> rs[i].seqNum != rs[j].seqNum
  }

  lemma {:induction false} ReadSome(rs: seq<Submit>, x: Submit)
    requires CountRead(rs, x) > 0
    ensures x in rs
    decreases |rs|
  {
    if rs[|rs| - 1] != x {
      ReadSome(rs[..|rs| - 1], x);
    }
  }

  lemma {:induction false} ReadOnce(rs: seq<Submit>, x: Submit)
    requires DistinctSeqs(rs)
    ensures CountRead(rs, x) <= 1
    decreases |rs|
  {
    if rs != [] {
      var n := |rs| - 1;
      ReadOnce(rs[..n], x);
      if rs[n] == x && CountRead(rs[..n], x) > 0 {
        ReadSome(rs[..n], x);
      }
    }
  }

  lemma {:induction false} AnswerCounted(rs: seq<Reply>, i: nat)
    requires i < |rs| && rs[i].RetSubmit?
    ensures CountAnswered(rs, rs[i].req) >= 1
    decreases |rs|
  {
    if i < |rs| - 1 {
      AnswerCounted(rs[..|rs| - 1], i);
    }
  }

  lemma {:induction false} AnswersCounted(rs: seq<Reply>, i: nat, j: nat)
    requires i < j < |rs| && rs[i].RetSubmit? && rs[j].RetSubmit? && rs[i].req == rs[j].req
    ensures CountAnswered(rs, rs[i].req) >= 2
    decreases |rs|
  {
    if j < |rs| - 1 {
      AnswersCounted(rs[..|rs| - 1], i, j);
    } else {
      AnswerCounted(rs[..|rs| - 1], i);
    }
  }

  lemma {:induction false} CancelCounted(cs: seq<Cancel>, i: nat)
    requires i < |cs|
    ensures CountCancelled(cs, cs[i].req) >= 1
    decreases |cs|
  {
    if i < |cs| - 1 {
      CancelCounted(cs[..|cs| - 1], i);
    }
  }

  /** The requests that wait on an interrupt endpoint. */
  predicate IsParked(ps: Ports, x: Submit) {
    exists ep :: 0 <= ep < 4 && ps[ep].endpoint.hostReady && ps[ep].endpoint.intrIn == x
  }

  lemma {:induction false} BalanceOf(s: State, x: Submit)
    requires Inv(s)
    ensures CountRead(s.link.consumed, x) ==
            CountAnswered(s.link.replies, x) + CountParked(s.ports, x)
            + CountCancelled(s.link.cancelled, x) + CountCurrent(s.link.current, x)
  {
    hide PortsOk, CountRead, CountAnswered, CountParked, CountCancelled, CountCurrent;
  }

  /** Every RET_SUBMIT answers a submit read on the same connection. */
  lemma {:induction false} AnsweredWasRead(s: State, i: nat)
    requires Inv(s) && i < |s.link.replies| && s.link.replies[i].RetSubmit?
    ensures s.link.replies[i].req in s.link.consumed
  {
    hide Inv, CountRead;
    var x := s.link.replies[i].req;
    BalanceOf(s, x);
    AnswerCounted(s.link.replies, i);
    ReadSome(s.link.consumed, x);
  }

  /** With distinct sequence numbers, no number is answered twice, and none that is answered is still
      parked, being served, or cancelled: synchronous answers, delayed ones and refusals together. */
  lemma {:induction false} AnsweredExactlyOnce(s: State, i: nat)
    requires Inv(s) && DistinctSeqs(s.link.consumed)
    requires i < |s.link.replies| && s.link.replies[i].RetSubmit?
    ensures
      var n := s.link.replies[i].req.seqNum;
      && (forall j :: 0 <= j < |s.link.replies| && j != i && s.link.replies[j].RetSubmit? ==> s.link.replies[j].req.seqNum != n)
      && (forall x :: IsParked(s.ports, x) ==> x.seqNum != n)
      && (forall k :: 0 <= k < |s.link.cancelled| ==> s.link.cancelled[k].req.seqNum != n)
      && (forall x :: s.link.current == Some(x) ==> x.seqNum != n)
  {
    hide Inv, CountRead;
    var l := s.link;
    var x := l.replies[i].req;
    BalanceOf(s, x);
    ReadOnce(l.consumed, x);
    AnswerCounted(l.replies, i);
    AnsweredWasRead(s, i);
    forall j | 0 <= j < |l.replies| && j != i && l.replies[j].RetSubmit? ensures l.replies[j].req.seqNum != x.seqNum {
      AnsweredWasRead(s, j);
      if l.replies[j].req.seqNum == x.seqNum {
        SameRequest(l.consumed, l.replies[j].req, x);
        AnswersCounted(l.replies, if i < j then i else j, if i < j then j else i);
      }
    }
    forall y | IsParked(s.ports, y) ensures y.seqNum != x.seqNum {
      HeldWasRead(s, y);
      if y.seqNum == x.seqNum {
        SameRequest(l.consumed, y, x);
      }
    }
    forall k | 0 <= k < |l.cancelled| ensures l.cancelled[k].req.seqNum != x.seqNum {
      CancelCounted(l.cancelled, k);
      HeldWasRead(s, l.cancelled[k].req);
      if l.cancelled[k].req.seqNum == x.seqNum {
        SameRequest(l.consumed, l.cancelled[k].req, x);
      }
    }
    forall y | l.current == Some(y) ensures y.seqNum != x.seqNum {
      HeldWasRead(s, y);
      if y.seqNum == x.seqNum {
        SameRequest(l.consumed, y, x);
      }
    }
  }

  /** Whatever is parked, cancelled or being served was read on this connection. */
  lemma {:induction false} HeldWasRead(s: State, x: Submit)
    requires Inv(s)
    requires IsParked(s.ports, x) || CountCancelled(s.link.cancelled, x) > 0 || s.link.current == Some(x)
    ensures x in s.link.consumed
  {
    hide Inv, CountRead, CountCancelled;
    BalanceOf(s, x);
    ReadSome(s.link.consumed, x);
  }

  lemma {:induction false} SameRequest(rs: seq<Submit>, x: Submit, y: Submit)
    requires DistinctSeqs(rs) && x in rs && y in rs && x.seqNum == y.seqNum
    ensures x == y
  {
    var i :| 0 <= i < |rs| && rs[i] == x;
    var j :| 0 <= j < |rs| && rs[j] == y;
  }

  /** Every submit read is accounted for: answered, parked, cancelled, or being served when the
      connection ended. None is forgotten. */
  lemma {:induction false} NoneForgotten(s: State, x: Submit)
    requires Inv(s) && x in s.link.consumed
    ensures
      || (exists i :: 0 <= i < |s.link.replies| && s.link.replies[i].RetSubmit? && s.link.replies[i].req == x)
      || IsParked(s.ports, x)
      || (exists k :: 0 <= k < |s.link.cancelled| && s.link.cancelled[k].req == x)
      || s.link.current == Some(x)
  {
    hide Inv, CountRead;
    BalanceOf(s, x);
    ReadCounted(s.link.consumed, x);
    if CountAnswered(s.link.replies, x) > 0 {
      var i := FindAnswer(s.link.replies, x);
    } else if CountCancelled(s.link.cancelled, x) > 0 {
      var k := FindCancel(s.link.cancelled, x);
    } else if CountParked(s.ports, x) > 0 {
      var ep: Ep := if ParkedAt(s.ports[0], x) > 0 then 0 else if ParkedAt(s.ports[1], x) > 0 then 1
                    else if ParkedAt(s.ports[2], x) > 0 then 2 else 3;
      assert s.ports[ep].endpoint.hostReady && s.ports[ep].endpoint.intrIn == x;
    }
  }

  lemma {:induction false} ReadCounted(rs: seq<Submit>, x: Submit)
    requires x in rs
    ensures CountRead(rs, x) > 0
    decreases |rs|
  {
    if rs[|rs| - 1] != x {
      ReadCounted(rs[..|rs| - 1], x);
    }
  }

  lemma {:induction false} FindAnswer(rs: seq<Reply>, x: Submit) returns (i: nat)
    requires CountAnswered(rs, x) > 0
    ensures i < |rs| && rs[i].RetSubmit? && rs[i].req == x
    decreases |rs|
  {
    var n := |rs| - 1;
    if AnswersOnce(rs[n], x) > 0 {
      i := n;
    } else {
      i := FindAnswer(rs[..n], x);
    }
  }

  lemma {:induction false} FindCancel(cs: seq<Cancel>, x: Submit) returns (k: nat)
    requires CountCancelled(cs, x) > 0
    ensures k < |cs| && cs[k].req == x
    decreases |cs|
  {
    var n := |cs| - 1;
    if cs[n].req == x {
      k := n;
    } else {
      k := FindCancel(cs[..n], x);
    }
  }

  /** A request that was cancelled by an unlink or a closed endpoint is never answered later. */
  lemma {:induction false} CancelledStaysUnanswered(s: State, t: State, c: Cancel)
    requires Inv(t) && Later(s.link, t.link) && DistinctSeqs(t.link.consumed)
    requires c in s.link.cancelled
    ensures forall i :: 0 <= i < |t.link.replies| && t.link.replies[i].RetSubmit? ==>
              t.link.replies[i].req.seqNum != c.req.seqNum
  {
    hide Inv;
    var k :| 0 <= k < |s.link.cancelled| && s.link.cancelled[k] == c;
    assert t.link.cancelled[k] == c;
    forall i | 0 <= i < |t.link.replies| && t.link.replies[i].RetSubmit?
      ensures t.link.replies[i].req.seqNum != c.req.seqNum
    {
      AnsweredExactlyOnce(t, i);
    }
  }

  // -------------------------------------------------------------- conservation

  /** Nothing the device staged on the endpoint was thrown away: its IN side was not closed and the
      device did not stop while a packet was staged. */
  predicate NoneDiscarded(l: Ledger) {
    forall i :: 0 <= i < |l.fates| ==> !l.fates[i].Discarded?
  }

  /** The bytes the device wrote to an endpoint are, in order, the bytes of the RET_SUBMIT payloads for it,
      then those gathered for the request being served if it reads from this endpoint, then the staged
      packet; and the device was told of each delivered packet once. */
  predicate AllDelivered(s: State, ep: Ep) {
    var p := s.ports[ep];
    && Flatten(p.ledger.wrote) == Payloads(s.link.replies, ep) + InFlight(s.link.current, s.link.gathered, ep)
                                  + (if p.pending then p.packet else [])
    && p.ledger.acks == |p.ledger.wrote| - (if p.pending then 1 else 0)
  }

  lemma {:induction false} KeptDelivered(s: State, ep: Ep)
    requires Inv(s) && ep != 0 && NoneDiscarded(s.ports[ep].ledger)
    ensures AllDelivered(s, ep)
  {
    hide Flatten, Payloads, ShippedPackets, RepliesOk, OutputOk, CancelsOk, Balanced, BufferOk;
    var p := s.ports[ep];
    var l := p.ledger;
    InvAt(s, ep);
    assert ConservedAt(p, s.link.replies, s.link.current, s.link.gathered, ep);
    forall i | 0 <= i < |l.fates| ensures l.fates[i].Shipped? {
      assert FateOk(ep, l.fates[i]);
    }
    AllShipped(l.wrote, l.fates);
    if p.pending {
      assert l.wrote == l.wrote[..|l.fates|] + [p.packet];
      FlattenSnoc(l.wrote[..|l.fates|], p.packet);
    } else {
      assert l.wrote == l.wrote[..|l.fates|];
    }
  }

  /** Conservation over a connection: if no callback of the device closes the IN side of a non-control
      endpoint or stops the device, everything written to the endpoint is delivered, in flight or
      staged, whether it leaves through parked requests or synchronous ones. */
  lemma {:induction false} NothingLost(a: State, ep: Ep)
    requires Inv(a) && AtHead(a) && a.ports[ep].ledger.fates == [] && ep != 0
    requires NoDrops(Used(a, Serve(a).state), ep)
    ensures AllDelivered(Serve(a).state, ep)
    ensures !Serve(a).flow.Aborted? ==>
              Serve(a).state.ports[ep].ledger.wrote == a.ports[ep].ledger.wrote + Writes(Used(a, Serve(a).state), ep)
  {
    hide Inv, Flushed, Serve, NoDrops, Used, Consumes, Halt, Writes, AllDelivered;
    ServeKeeps(a);
    ServeFollows(a);
    var t := Serve(a).state;
    assert PortFollows(a.ports[ep], t.ports[ep], Used(a, t), ep, !Serve(a).flow.Aborted?, true);
    KeptDelivered(t, ep);
  }

  // ------------------------------------------------------------------- output

  /** Whether the host asked for data from the device under this number. */
  predicate AskedIn(rs: seq<Submit>, seqNum: uint32) {
    exists i :: 0 <= i < |rs| && rs[i].seqNum == seqNum && rs[i].direction == 1
  }

  /** Until a write fails, what a connection wrote is a concatenation of whole frames, from which a host
      that remembers the direction of each of its requests recovers the exact reply list. After a
      failed write the whole frames are followed by a proper prefix of one more. */
  lemma {:induction false} HostRecoversReplies(s: State)
    requires Inv(s) && Written(s) && DistinctSeqs(s.link.consumed)
    ensures s.link.sent == EncodeReplies(s.link.replies) || CutShort(s.link)
    ensures s.link.budget > 0 ==>
              HostParse(s.link.sent, (n: uint32) => AskedIn(s.link.consumed, n)) == Some(Views(s.link.replies))
    ensures HostParse(EncodeReplies(s.link.replies), (n: uint32) => AskedIn(s.link.consumed, n)) == Some(Views(s.link.replies))
  {
    hide PortsOk, CancelsOk, Balanced, Conserved, BufferOk, EncodeReplies, HostParse, ReplyShape;
    var l := s.link;
    var isIn := (n: uint32) => AskedIn(l.consumed, n);
    forall i | 0 <= i < |l.replies| && l.replies[i].RetSubmit?
      ensures isIn(l.replies[i].req.seqNum) == (l.replies[i].req.direction == 1)
    {
      AnsweredWasRead(s, i);
      AskedOnce(l.consumed, l.replies[i].req);
    }
    OutputRoundTrip(l.replies, isIn);
  }

  lemma {:induction false} AskedOnce(rs: seq<Submit>, x: Submit)
    requires DistinctSeqs(rs) && x in rs
    ensures AskedIn(rs, x.seqNum) == (x.direction == 1)
  {
    var j :| 0 <= j < |rs| && rs[j] == x;
    if AskedIn(rs, x.seqNum) {
      var i :| 0 <= i < |rs| && rs[i].seqNum == x.seqNum && rs[i].direction == 1;
      assert i == j;
    }
  }

  // ------------------------------------------------------- runs of the server

  /** Between connections: nothing waits, nothing is attached, the endpoints are within bounds. */
  ghost predicate Resting(s: State) {
    && TablesOk(s.tables) && !s.attached && TimerOk(s.timer, s.armings, s.fired, s.ticks, s.clock)
    && (forall ep: Ep :: RestingPort(ep, s.ports[ep]))
  }

  predicate RestingPort(ep: Ep, p: Port) {
    && (p.endpoint.kind == 0 || p.endpoint.kind == KindOf(ep))
    && (p.endpoint.mps == 0 || (p.endpoint.mps == PacketBytes(ep) && p.endpoint.kind == KindOf(ep)))
    && |p.packet| <= PacketBytes(ep)
    && !p.endpoint.hostReady && p.endpoint.intrIn == ZERO_SUBMIT
  }

  predicate BlankPort(p: Port) {
    !p.pending && p.packet == [] && p.ledger == NEW_LEDGER
  }

  /** A connection starts with an empty history and no request parked. */
  ghost predicate FreshStart(a: State) {
    && Inv(a) && AtHead(a) && !a.attached
    && a.link == NewLink(Peer(a.link.input, a.link.budget, a.link.polls))
    && (forall ep: Ep :: !a.ports[ep].endpoint.hostReady && a.ports[ep].ledger.fates == [])
  }

  ghost predicate Blank(a: State) {
    forall ep: Ep :: BlankPort(a.ports[ep])
  }

  ghost predicate GoodSession(z: Session) {
    && FreshStart(z.start) && z.end == Serve(z.start).state
    && Inv(z.end) && AttachedFirst(z.end) && Written(z.end)
  }

  lemma {:induction false} FreshPortOk(ep: Ep, p: Port)
    requires RestingPort(ep, p)
    ensures PortOk(ep, FreshPort(p)) && ShippedOf(FreshPort(p).ledger) == []
  {}

  lemma {:induction false} NewLinkInv(ps: Ports, c: Peer)
    requires forall ep: Ep :: !ps[ep].endpoint.hostReady && ShippedOf(ps[ep].ledger) == []
    ensures LinkInv(ps, NewLink(c))
  {
    hide ShippedOf;
    var l := NewLink(c);
    forall x: Submit
      ensures CountRead([], x) == CountAnswered([], x) + Waiting(ps, [], x) + CountCurrent(None, x)
    {}
    forall ep: Ep ensures ConservedAt(ps[ep], [], None, [], ep) {
      assert ShippedOf(ps[ep].ledger) == [];
    }
  }

  lemma {:induction false} AcceptedFresh(s: State, c: Peer)
    requires Resting(s)
    ensures FreshStart(Accepted(s, c))
    ensures (forall ep: Ep :: !s.ports[ep].pending && s.ports[ep].packet == []) ==> Blank(Accepted(s, c))
  {
    hide PortOk, LinkInv, RestingPort, ShippedOf;
    var a := Accepted(s, c);
    forall ep: Ep ensures PortOk(ep, a.ports[ep]) && ShippedOf(a.ports[ep].ledger) == [] && !a.ports[ep].endpoint.hostReady
      ensures a.ports[ep].ledger.fates == []
    {
      assert a.ports[ep] == FreshPort(s.ports[ep]);
      FreshPortOk(ep, s.ports[ep]);
      RestingQuiet(ep, s.ports[ep]);
    }
    NewLinkInv(a.ports, c);
  }

  lemma {:induction false} RestingQuiet(ep: Ep, p: Port)
    requires RestingPort(ep, p)
    ensures !p.endpoint.hostReady
  {}

  /** rust_disconnect forgets every request and every staged packet. */
  lemma {:induction false} DisconnectForgets(s: State)
    requires Inv(s) && Disconnect(s).flow.Continue?
    ensures
      var d := Disconnect(s).state;
      Resting(d) && forall ep: Ep :: !d.ports[ep].pending && d.ports[ep].packet == []
  {
    hide LinkInv, PortOk, Call, QuietPorts, SameWaiting;
    var s0 := s.(attached := false, timer := None);
    PlainCallKeeps(s0, BootReset);
    var s1 := Call(s0, BootReset).state;
    var d := Disconnect(s).state;
    forall ep: Ep ensures RestingPort(ep, d.ports[ep]) && !d.ports[ep].pending && d.ports[ep].packet == [] {
      InvAt(s1, ep);
      assert d.ports[ep] == Wiped(s1.ports[ep]);
      WipedRests(ep, s1.ports[ep]);
    }
  }

  lemma {:induction false} WipedRests(ep: Ep, p: Port)
    requires PortOk(ep, p)
    ensures RestingPort(ep, Wiped(p)) && !Wiped(p).pending && Wiped(p).packet == []
  {}

  lemma {:induction false} SessionsGood(s: State, peers: seq<Peer>)
    requires Resting(s)
    ensures
      var zs := Sessions(s, peers);
      && (forall k :: 0 <= k < |zs| ==> GoodSession(zs[k]))
      && (forall k :: 0 < k < |zs| ==> Blank(zs[k].start))
      && (|zs| > 0 && (forall ep: Ep :: !s.ports[ep].pending && s.ports[ep].packet == []) ==> Blank(zs[0].start))
    decreases |peers|
  {
    hide Inv, Serve, Disconnect, Accepted, Resting, AtHead, AttachedFirst, Sessions;
    if peers == [] {
      assert Sessions(s, peers) == [] by { NoPeers(s); }
    } else {
      SessionsStep(s, peers);
      AcceptedFresh(s, peers[0]);
      var a := Accepted(s, peers[0]);
      ServeKeeps(a);
      var r := Serve(a);
      if r.flow.Fatal? && Disconnect(r.state).flow.Continue? {
        DisconnectForgets(r.state);
        SessionsGood(Disconnect(r.state).state, peers[1..]);
      }
    }
  }

  lemma {:induction false} NoPeers(s: State)
    ensures Sessions(s, []) == []
  {}

  lemma {:induction false} BootRests(clock: nat -> nat, script: seq<seq<Callback>>, tables: Tables)
    requires TablesOk(tables)
    ensures Resting(Call(PowerOn(clock, script, tables), HostOpen).state)
  {
    hide Call, PortOk, LinkInv, QuietPort, SameWaiting;
    var s := PowerOn(clock, script, tables);
    PowerOnInv(clock, script, tables);
    PlainCallKeeps(s, HostOpen);
    var t := Call(s, HostOpen).state;
    forall ep: Ep ensures RestingPort(ep, t.ports[ep]) {
      InvAt(t, ep);
      assert QuietPort(s.ports[ep], t.ports[ep]);
      assert s.ports[ep] == IDLE_PORT;
      BootPortRests(ep, t.ports[ep]);
    }
  }

  lemma {:induction false} BootPortRests(ep: Ep, p: Port)
    requires PortOk(ep, p) && QuietPort(IDLE_PORT, p)
    ensures RestingPort(ep, p)
  {}

  lemma {:induction false} PowerOnInv(clock: nat -> nat, script: seq<seq<Callback>>, tables: Tables)
    requires TablesOk(tables)
    ensures Inv(PowerOn(clock, script, tables))
  {
    hide LinkInv;
    var s := PowerOn(clock, script, tables);
    forall ep: Ep ensures PortOk(ep, s.ports[ep]) && ShippedOf(s.ports[ep].ledger) == [] && !s.ports[ep].endpoint.hostReady {
      assert s.ports[ep] == IDLE_PORT;
    }
    NewLinkInv(s.ports, Peer([], 0, []));
  }

  /** Connections are isolated, over any number of them: each RET_SUBMIT answers a submit read on the
      same socket, each IN payload is made of packets the device wrote during the same connection
      (from the second connection on the endpoints start empty), and nothing is answered before the
      device is attached. */
  lemma {:induction false} ConnectionsAreIsolated(clock: nat -> nat, script: seq<seq<Callback>>, tables: Tables, peers: seq<Peer>, k: nat)
    requires TablesOk(tables) && k < |ServerRun(clock, script, tables, peers)|
    ensures
      var z := ServerRun(clock, script, tables, peers)[k];
      var l := z.end.link;
      && GoodSession(z)
      && (k > 0 ==> Blank(z.start))
      && (forall i :: 0 <= i < |l.replies| && l.replies[i].RetSubmit? ==> l.replies[i].req in l.consumed)
      && (forall ep: Ep :: Payloads(l.replies, ep) <= Flatten(ShippedOf(z.end.ports[ep].ledger)))
      && (!z.end.attached ==> forall i :: 0 <= i < |l.replies| ==> !l.replies[i].RetSubmit?)
  {
    hide Call, Serve, Sessions, Resting, FreshStart, Inv, Written, Blank, Flatten, ShippedPackets, Payloads;
    BootRests(clock, script, tables);
    SessionsGood(Call(PowerOn(clock, script, tables), HostOpen).state, peers);
    var z := ServerRun(clock, script, tables, peers)[k];
    var l := z.end.link;
    assert GoodSession(z);
    forall i | 0 <= i < |l.replies| && l.replies[i].RetSubmit? ensures l.replies[i].req in l.consumed {
      AnsweredWasRead(z.end, i);
    }
    forall ep: Ep ensures Payloads(l.replies, ep) <= Flatten(ShippedOf(z.end.ports[ep].ledger)) {
      PayloadsShipped(z.end, ep);
    }
  }

  // ---------------------------------------------------- every run, end to end

  /** The exactly-once law for every run and every connection of it, whatever moment it is looked at:
      a run is a finite observation, so its last connection ends at an arbitrary upcall or poll. */
  lemma {:induction false} EveryRunAnswersOnce(clock: nat -> nat, script: seq<seq<Callback>>, tables: Tables, peers: seq<Peer>, k: nat)
    requires TablesOk(tables) && k < |ServerRun(clock, script, tables, peers)|
    requires DistinctSeqs(ServerRun(clock, script, tables, peers)[k].end.link.consumed)
    ensures
      var t := ServerRun(clock, script, tables, peers)[k].end;
      && (forall x :: x in t.link.consumed ==>
            CountAnswered(t.link.replies, x) + CountParked(t.ports, x) + CountCancelled(t.link.cancelled, x)
            + CountCurrent(t.link.current, x) == 1)
      && (forall i, j :: 0 <= i < j < |t.link.replies| && t.link.replies[i].RetSubmit? && t.link.replies[j].RetSubmit? ==>
            t.link.replies[i].req.seqNum != t.link.replies[j].req.seqNum)
  {
    hide Inv, Sessions, Call, FreshStart, CountRead, CountAnswered, CountParked, CountCancelled, CountCurrent, DistinctSeqs;
    ConnectionsAreIsolated(clock, script, tables, peers, k);
    var t := ServerRun(clock, script, tables, peers)[k].end;
    forall x | x in t.link.consumed
      ensures CountAnswered(t.link.replies, x) + CountParked(t.ports, x) + CountCancelled(t.link.cancelled, x)
              + CountCurrent(t.link.current, x) == 1
    {
      BalanceOf(t, x);
      ReadCounted(t.link.consumed, x);
      ReadOnce(t.link.consumed, x);
    }
    forall i, j | 0 <= i < j < |t.link.replies| && t.link.replies[i].RetSubmit? && t.link.replies[j].RetSubmit?
      ensures t.link.replies[i].req.seqNum != t.link.replies[j].req.seqNum
    {
      AnsweredExactlyOnce(t, i);
    }
  }

  /** The conservation law for every run and every connection of it: on a non-control endpoint that no
      callback of the connection closes for IN or stops, nothing is lost, repeated or reordered. */
  lemma {:induction false} EveryRunDelivers(clock: nat -> nat, script: seq<seq<Callback>>, tables: Tables, peers: seq<Peer>, k: nat, ep: Ep)
    requires TablesOk(tables) && k < |ServerRun(clock, script, tables, peers)| && ep != 0
    requires
      var z := ServerRun(clock, script, tables, peers)[k];
      NoDrops(Used(z.start, z.end), ep)
    ensures
      var z := ServerRun(clock, script, tables, peers)[k];
      && AllDelivered(z.end, ep)
      && (!Serve(z.start).flow.Aborted? ==>
            z.end.ports[ep].ledger.wrote == z.start.ports[ep].ledger.wrote + Writes(Used(z.start, z.end), ep))
  {
    hide Sessions, Call, Inv, Flushed, Serve, Blank, AllDelivered, NoDrops, Used, Writes;
    ConnectionsAreIsolated(clock, script, tables, peers, k);
    NothingLost(ServerRun(clock, script, tables, peers)[k].start, ep);
  }

  /** The output law for every run and every connection of it: the bytes the socket was given are whole
      frames, until a write fails; and a host with distinct sequence numbers that remembers their
      directions reads the exact reply list off them. */
  lemma {:induction false} EveryRunIsDecodable(clock: nat -> nat, script: seq<seq<Callback>>, tables: Tables, peers: seq<Peer>, k: nat)
    requires TablesOk(tables) && k < |ServerRun(clock, script, tables, peers)|
    ensures
      var l := ServerRun(clock, script, tables, peers)[k].end.link;
      && (l.sent == EncodeReplies(l.replies) || CutShort(l))
      && (l.budget > 0 && DistinctSeqs(l.consumed) ==>
            HostParse(l.sent, (n: uint32) => AskedIn(l.consumed, n)) == Some(Views(l.replies)))
  {
    hide Sessions, Call, Inv, FreshStart, Serve, Blank, CutShort, DistinctSeqs, HostParse, AskedIn, EncodeReplies;
    ConnectionsAreIsolated(clock, script, tables, peers, k);
    var t := ServerRun(clock, script, tables, peers)[k].end;
    if DistinctSeqs(t.link.consumed) {
      HostRecoversReplies(t);
    }
  }

  lemma {:induction false} PayloadsShipped(s: State, ep: Ep)
    requires Inv(s)
    ensures Payloads(s.link.replies, ep) <= Flatten(ShippedOf(s.ports[ep].ledger))
  {
    hide PortsOk, RepliesOk, OutputOk, CancelsOk, BufferOk, Balanced, Flatten, ShippedPackets, Payloads;
    assert ConservedAt(s.ports[ep], s.link.replies, s.link.current, s.link.gathered, ep);
  }
}
