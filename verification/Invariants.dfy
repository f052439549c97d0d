/** The global invariant of the server, kept by every step of every run. */
module Invariants {
  import opened Bytes
  import opened Wire
  import opened Model
  import opened Adapter
  import opened Ledgers
  import opened Callbacks

  /** The output so far is exactly the replies: no frame is cut short. */
  ghost predicate Flushed(s: State) {
    s.link.sent == EncodeReplies(s.link.replies)
  }

  /** A write failed: the peer accepts no more, and the output ends in a proper prefix of one frame. */
  ghost predicate CutShort(l: Link) {
    l.budget == 0 && exists r: Reply, k: nat :: CutAt(l, r, k)
  }

  ghost predicate CutAt(l: Link, r: Reply, k: nat) {
    ReplyOk(r) && k < |EncodeReply(r)| && l.sent == EncodeReplies(l.replies) + EncodeReply(r)[..k]
  }

  /** The output is a concatenation of whole frames, until a write fails. */
  ghost predicate Written(s: State) {
    Flushed(s) || CutShort(s.link)
  }

  /** Nothing is read as a submit before the device is attached. */
  predicate AttachedFirst(s: State) {
    s.attached || s.link.consumed == []
  }

  /** A head of the connection loop: whole frames only, and no submit is being served. */
  ghost predicate AtHead(s: State) {
    Flushed(s) && s.link.current.None? && AttachedFirst(s)
  }

  /** The state in which rust_submit serves request `r`. */
  ghost predicate Serving(s: State, r: Submit) {
    Inv(s) && Flushed(s) && s.attached && s.link.current == Some(r) && r.ep < 4 && r.direction <= 1
  }

  /** What a step of the loop must leave: the invariant, and a clean head unless it failed. */
  ghost predicate Served(run: Run) {
    Inv(run.state) && AttachedFirst(run.state) && Written(run.state) && (run.flow.Continue? ==> AtHead(run.state))
  }

  // ------------------------------------------------------------- the socket

  lemma {:induction false} WriteKeeps(s: State, b: seq<byte>)
    requires Inv(s)
    ensures Inv(WriteBytes(s, b).state)
  {
    hide PortsOk, RepliesOk, CancelsOk, BufferOk, Conserved, Balanced, EncodeReplies;
  }

  lemma {:induction false} ReadKeeps(s: State, n: nat)
    requires Inv(s)
    ensures Inv(Read(s, n).state)
    ensures Flushed(s) ==> Flushed(Read(s, n).state)
  {
    hide PortsOk, RepliesOk, OutputOk, CancelsOk, BufferOk, Conserved, Balanced, EncodeReplies;
  }

  /** A reply goes out whole, or is the one that is cut short. */
  lemma {:induction false} SendWritten(s: State, r: Reply)
    requires Flushed(s) && ReplyOk(r)
    ensures Written(Send(s, r).state)
    ensures !Send(s, r).flow.Continue? ==> CutShort(Send(s, r).state.link)
  {
    hide EncodeReply, EncodeReplies, ReplyOk;
    if |EncodeReply(r)| <= s.link.budget {
      EncodeRepliesSnoc(s.link.replies, r);
    } else {
      assert CutAt(Send(s, r).state.link, r, s.link.budget);
    }
  }

  /** The link after a reply to the request being served. */
  lemma {:induction false} AnsweredLink(ps: Ports, l: Link, m: Link, reply: Reply)
    requires LinkInv(ps, l) && l.sent == EncodeReplies(l.replies)
    requires reply.RetSubmit? && ReplyOk(reply) && l.current == Some(reply.req) && reply.payload == l.gathered
    requires m == l.(replies := l.replies + [reply], sent := l.sent + EncodeReply(reply), budget := m.budget,
                     current := None, gathered := [])
    ensures LinkInv(ps, m) && m.sent == EncodeReplies(m.replies)
  {
    hide EncodeReply, EncodeReplies, ReplyOk, Balanced, ConservedAt;
    EncodeRepliesSnoc(l.replies, reply);
    RepliesSnoc(l.replies, reply);
    BalancedAnswer(l.consumed, l.replies, ps, l.cancelled, reply);
    forall ep: Ep ensures ConservedAt(ps[ep], m.replies, None, [], ep) {
      assert ConservedAt(ps[ep], l.replies, l.current, l.gathered, ep);
      ConservedAnswer(ps[ep], l.replies, reply.req, l.gathered, reply.status, reply.actual, ep);
    }
  }

  lemma {:induction false} OtherLink(ps: Ports, l: Link, m: Link, reply: Reply)
    requires LinkInv(ps, l) && l.sent == EncodeReplies(l.replies)
    requires !reply.RetSubmit? && ReplyOk(reply)
    requires m == l.(replies := l.replies + [reply], sent := l.sent + EncodeReply(reply), budget := m.budget)
    ensures LinkInv(ps, m) && m.sent == EncodeReplies(m.replies)
  {
    hide EncodeReply, EncodeReplies, ReplyOk, Balanced, ConservedAt;
    EncodeRepliesSnoc(l.replies, reply);
    RepliesSnoc(l.replies, reply);
    BalancedOther(l.consumed, l.replies, ps, l.cancelled, l.current, reply);
    forall ep: Ep ensures ConservedAt(ps[ep], m.replies, l.current, l.gathered, ep) {
      assert ConservedAt(ps[ep], l.replies, l.current, l.gathered, ep);
      ConservedOther(ps[ep], l.replies, reply, l.current, l.gathered, ep);
    }
  }

  /** The answer to the request being served, whose payload is what was gathered. */
  lemma {:induction false} AnswerKeeps(s: State, r: Submit, status: uint32, actual: uint32)
    requires Serving(s, r)
    requires ReplyOk(RetSubmit(r, status, actual, s.link.gathered))
    ensures Served(Answer(s, r, status, actual, s.link.gathered))
  {
    hide PortsOk, LinkInv, EncodeReply, EncodeReplies, ReplyOk, CutShort;
    var reply := RetSubmit(r, status, actual, s.link.gathered);
    WriteKeeps(s, EncodeReply(reply));
    SendWritten(s, reply);
    if |EncodeReply(reply)| <= s.link.budget {
      AnsweredLink(s.ports, s.link, Answer(s, r, status, actual, s.link.gathered).state.link, reply);
    }
  }

  /** A reply that answers no submit. */
  lemma {:induction false} SendOtherKeeps(s: State, r: Reply)
    requires Inv(s) && AtHead(s) && !r.RetSubmit? && ReplyShape(r)
    ensures Served(Send(s, r))
  {
    hide PortsOk, LinkInv, EncodeReply, EncodeReplies, ReplyShape, CutShort;
    WriteKeeps(s, EncodeReply(r));
    SendWritten(s, r);
    if |EncodeReply(r)| <= s.link.budget {
      OtherLink(s.ports, s.link, Send(s, r).state.link, r);
    }
  }

  // --------------------------------------------------- packets leaving slots

  /** A packet leaves its slot as an acknowledged status stage. */
  lemma {:induction false} AcknowledgeKeeps(s: State, ep: Ep)
    requires Inv(s) && s.ports[ep].pending && ep == 0
    ensures Inv(Call(SetRetired(s, ep, Acknowledged), InDone(ep)).state)
    ensures Quiet(Noted(SetRetired(s, ep, Acknowledged), InDone(ep)), Call(SetRetired(s, ep, Acknowledged), InDone(ep)).state)
    ensures SameConnection(s, Call(SetRetired(s, ep, Acknowledged), InDone(ep)).state)
  {
    hide PortOk, PortsOk, RepliesOk, OutputOk, CancelsOk, BufferOk, Conserved, ConservedAt, Balanced, SameWaiting, Call, ShippedOf;
    var l := s.link;
    var q := Completed(s.ports[ep], Acknowledged);
    var t := Noted(SetRetired(s, ep, Acknowledged), InDone(ep));
    assert t == SetPort(s, ep, q).(calls := t.calls);
    PortsOkAt(s.ports, ep);
    CompletedOk(ep, s.ports[ep], Acknowledged);
    SetPortOk(s.ports, ep, q);
    SameParked(s.ports, l.cancelled, ep, q);
    BalancedQuiet(l.consumed, l.replies, s.ports, l.cancelled, l.current, t.ports, l.cancelled);
    ConservedSame(s.ports, ep, q, l.replies, l.current, l.gathered);
    CallKeeps(SetRetired(s, ep, Acknowledged), InDone(ep));
    CallLink(SetRetired(s, ep, Acknowledged), InDone(ep));
  }

  /** A port that shipped nothing more is as conserving as before. */
  lemma {:induction false} ConservedSame(ps: Ports, ep: Ep, q: Port, rs: seq<Reply>, current: Option<Submit>, gathered: seq<byte>)
    requires Conserved(ps, rs, current, gathered) && ShippedOf(q.ledger) == ShippedOf(ps[ep].ledger)
    ensures Conserved(ps[ep := q], rs, current, gathered)
  {
    hide ShippedOf, Payloads, Flatten;
    assert ConservedAt(ps[ep], rs, current, gathered, ep);
    ConservedSet(ps, ep, q, rs, current, gathered);
  }

  lemma {:induction false} TakenLink(ps: Ports, l: Link, ep: Ep)
    requires LinkInv(ps, l) && PortOk(ep, ps[ep]) && ps[ep].pending
    requires l.current.Some? && l.current.value.ep == ep
    requires |l.gathered| + |ps[ep].packet| <= TX_BUFFER_BYTES
    ensures LinkInv(ps[ep := Completed(ps[ep], Shipped)], l.(gathered := l.gathered + ps[ep].packet))
  {
    hide RepliesOk, OutputOk, CancelsOk, Balanced, ConservedAt, ShippedOf, SameWaiting, PortOk;
    var p := ps[ep];
    var q := Completed(p, Shipped);
    CompletedOk(ep, p, Shipped);
    SameParked(ps, l.cancelled, ep, q);
    BalancedQuiet(l.consumed, l.replies, ps, l.cancelled, l.current, ps[ep := q], l.cancelled);
    assert ConservedAt(p, l.replies, l.current, l.gathered, ep);
    ConservedTake(p, q, l.replies, l.current.value, l.gathered, ep);
    forall e: Ep | e != ep ensures ConservedAt(ps[e], l.replies, l.current, l.gathered + p.packet, e) {
      assert ConservedAt(ps[e], l.replies, l.current, l.gathered, e);
      ConservedElsewhere(ps[e], l.replies, l.current.value, l.gathered, l.gathered + p.packet, e);
    }
    ConservedSet(ps, ep, q, l.replies, l.current, l.gathered + p.packet);
  }

  /** Bytes gathered for another endpoint's request do not matter here. */
  lemma {:induction false} ConservedElsewhere(p: Port, rs: seq<Reply>, r: Submit, a: seq<byte>, b: seq<byte>, ep: Ep)
    requires ConservedAt(p, rs, Some(r), a, ep) && r.ep != ep
    ensures ConservedAt(p, rs, Some(r), b, ep)
  {
    hide ShippedOf, Payloads, Flatten;
  }

  /** A packet moves from its slot into the gather buffer, and the device is told. */
  lemma {:induction false} TakenKeeps(s: State, r: Submit)
    requires Serving(s, r) && s.ports[r.ep].pending
    requires |s.link.gathered| + |s.ports[r.ep].packet| <= TX_BUFFER_BYTES
    ensures Serving(Call(Taken(s, r.ep), InDone(r.ep)).state, r)
    ensures SameConnection(Taken(s, r.ep), Call(Taken(s, r.ep), InDone(r.ep)).state)
  {
    hide PortOk, PortsOk, LinkInv, EncodeReplies, Call;
    var q := Completed(s.ports[r.ep], Shipped);
    assert Noted(Taken(s, r.ep), InDone(r.ep)).ports == s.ports[r.ep := q];
    PortsOkAt(s.ports, r.ep);
    CompletedOk(r.ep, s.ports[r.ep], Shipped);
    SetPortOk(s.ports, r.ep, q);
    TakenLink(s.ports, s.link, r.ep);
    CallKeeps(Taken(s, r.ep), InDone(r.ep));
    CallLink(Taken(s, r.ep), InDone(r.ep));
  }

  // ------------------------------------------------------ parked interrupts

  /** The reply to the request parked on a port, carrying its packet. */
  function ParkedReply(p: Port): Reply
    requires |p.packet| <= p.endpoint.intrIn.length
  {
    RetSubmit(p.endpoint.intrIn, STATUS_OK, |p.packet|, p.packet)
  }

  lemma {:induction false} ParkedReplyOk(ep: Ep, p: Port)
    requires PortOk(ep, p) && p.endpoint.hostReady && |p.packet| <= p.endpoint.intrIn.length
    ensures ReplyOk(ParkedReply(p)) && p.endpoint.intrIn.ep == ep
  {
    hide TakenCount;
    assert p.endpoint.intrIn in p.ledger.parked;
  }

  lemma {:induction false} CompletedLink(ps: Ports, l: Link, m: Link, ep: Ep)
    requires LinkInv(ps, l) && l.sent == EncodeReplies(l.replies) && l.current.None?
    requires PortOk(ep, ps[ep]) && ps[ep].endpoint.hostReady && ps[ep].pending
    requires |ps[ep].packet| <= ps[ep].endpoint.intrIn.length
    requires m == l.(replies := l.replies + [ParkedReply(ps[ep])], sent := l.sent + EncodeReply(ParkedReply(ps[ep])),
                     budget := m.budget)
    ensures LinkInv(ps[ep := Completed(Unparked(ps[ep]), Shipped)], m) && m.sent == EncodeReplies(m.replies)
  {
    hide EncodeReply, EncodeReplies, ReplyOk, Balanced, ConservedAt, PortOk, ShippedOf;
    var p := ps[ep];
    var reply := ParkedReply(p);
    var q := Completed(Unparked(p), Shipped);
    ParkedReplyOk(ep, p);
    EncodeRepliesSnoc(l.replies, reply);
    RepliesSnoc(l.replies, reply);
    BalancedComplete(l.consumed, l.replies, ps, l.cancelled, ep, q, reply);
    UnparkedOk(ep, p);
    CompletedOk(ep, Unparked(p), Shipped);
    assert ConservedAt(p, l.replies, None, [], ep);
    ConservedComplete(p, q, l.replies, p.endpoint.intrIn, STATUS_OK, |p.packet|, ep);
    forall e: Ep | e != ep ensures ConservedAt(ps[e], m.replies, None, [], e) {
      assert ConservedAt(ps[e], l.replies, None, [], e);
      ConservedOtherEndpoint(ps[e], l.replies, reply, e);
    }
    ConservedSet(ps, ep, q, m.replies, None, []);
  }

  lemma {:induction false} ConservedOtherEndpoint(p: Port, rs: seq<Reply>, reply: Reply, ep: Ep)
    requires ConservedAt(p, rs, None, [], ep) && reply.RetSubmit? && reply.req.ep != ep
    ensures ConservedAt(p, rs + [reply], None, [], ep)
  {
    PayloadsSnoc(rs, reply, ep);
  }

  lemma {:induction false} UnparkedOk(ep: Ep, p: Port)
    requires PortOk(ep, p)
    ensures PortOk(ep, Unparked(p))
  {
    hide TakenCount;
  }

  /** A parked request is answered with the staged packet, and the device is told. */
  lemma {:induction false} CompleteOneKeeps(s: State, ep: Ep)
    requires Inv(s) && AtHead(s)
    ensures Served(CompleteOne(s, ep))
  {
    hide PortOk, PortsOk, LinkInv, EncodeReply, EncodeReplies, ReplyOk, CutShort, Call;
    var p := s.ports[ep];
    if p.endpoint.hostReady && p.pending && |p.packet| <= p.endpoint.intrIn.length {
      var reply := ParkedReply(p);
      WriteKeeps(s, EncodeReply(reply));
      PortsOkAt(s.ports, ep);
      ParkedReplyOk(ep, p);
      SendWritten(s, reply);
      if |EncodeReply(reply)| <= s.link.budget {
        var s1 := Send(s, reply).state;
        var t := SetPort(s1, ep, Retired(Unparked(p), Shipped));
        var q := Completed(Unparked(p), Shipped);
        CompletedLink(s.ports, s.link, s1.link, ep);
        UnparkedOk(ep, p);
        CompletedOk(ep, Unparked(p), Shipped);
        SetPortOk(s.ports, ep, q);
        assert Noted(t, InDone(ep)).ports == s.ports[ep := q];
        CallKeeps(t, InDone(ep));
        CallLink(t, InDone(ep));
      }
    }
  }

  lemma {:induction false} CompleteFromKeeps(s: State, ep: nat)
    requires ep <= 4
    requires Inv(s) && AtHead(s)
    ensures Served(CompleteFrom(s, ep))
    decreases 4 - ep
  {
    hide Inv, Flushed, CompleteOne;
    if ep < 4 {
      CompleteOneKeeps(s, ep);
      var r := CompleteOne(s, ep);
      if r.flow.Continue? {
        CompleteFromKeeps(r.state, ep + 1);
      }
    }
  }

  // ---------------------------------------------------------------- OUT data

  lemma {:induction false} OutCallQuiet(s: State, ep: Ep, bytes: seq<byte>)
    requires Inv(s)
    ensures Inv(Call(s, OutData(ep, bytes)).state)
    ensures Quiet(Noted(s, OutData(ep, bytes)), Call(s, OutData(ep, bytes)).state)
  {
    hide PortsOk, RepliesOk, OutputOk, CancelsOk, BufferOk, Conserved, Balanced, SameWaiting, Call, ShippedOf, TakenCount;
    var l := s.link;
    var t := Noted(s, OutData(ep, bytes));
    var q := t.ports[ep];
    PortsOkAt(s.ports, ep);
    SetPortOk(s.ports, ep, q);
    SameParked(s.ports, l.cancelled, ep, q);
    BalancedQuiet(l.consumed, l.replies, s.ports, l.cancelled, l.current, t.ports, l.cancelled);
    assert ShippedOf(q.ledger) == ShippedOf(s.ports[ep].ledger) by {
      ShippedSame(s.ports[ep].ledger, q.ledger);
    }
    ConservedSame(s.ports, ep, q, l.replies, l.current, l.gathered);
    CallKeeps(s, OutData(ep, bytes));
  }

  lemma {:induction false} OutCallKeeps(s: State, ep: Ep, bytes: seq<byte>)
    requires Inv(s)
    ensures Inv(Call(s, OutData(ep, bytes)).state)
    ensures SameConnection(s, Call(s, OutData(ep, bytes)).state)
  {
    hide Inv, Quiet, Call;
    OutCallQuiet(s, ep, bytes);
    CallLink(s, OutData(ep, bytes));
  }

  lemma {:induction false} ShippedSame(l: Ledger, m: Ledger)
    requires l.wrote == m.wrote && l.fates == m.fates
    ensures ShippedOf(l) == ShippedOf(m)
  {}

  /** A step that changes nothing of the link but the cancellations keeps a request being served. */
  lemma {:induction false} StillServing(s: State, t: State, r: Submit)
    requires Serving(s, r) && Inv(t) && SameConnection(s, t)
    ensures Serving(t, r)
  {
    hide Inv, EncodeReplies;
  }

  lemma {:induction false} DeviceLoopServing(s: State, r: Submit)
    requires Serving(s, r)
    ensures Serving(DeviceLoop(s).state, r) && SameConnection(s, DeviceLoop(s).state)
  {
    hide Inv, EncodeReplies, DeviceLoop;
    DeviceLoopKeeps(s);
    DeviceLoopLink(s);
    StillServing(s, DeviceLoop(s).state, r);
  }

  lemma {:induction false} FinishOutKeeps(s: State, r: Submit, halted: bool)
    requires Serving(s, r) && r.direction == 0 && s.link.gathered == [] && (halted ==> r.ep != 0)
    ensures Served(FinishOut(s, r, halted))
  {
    hide Inv, Flushed, Call, Answer;
    if r.ep == 0 && s.ports[0].pending {
      AcknowledgeKeeps(s, 0);
      StillServing(s, Call(SetRetired(s, 0, Acknowledged), InDone(0)).state, r);
    }
    var s1 := if r.ep == 0 && s.ports[0].pending
              then Call(SetRetired(s, 0, Acknowledged), InDone(0)) else Run(s, Continue);
    if s1.flow.Continue? {
      AnswerKeeps(s1.state, r, if halted then NEG_EPIPE else STATUS_OK, if halted then 0 else r.length);
    }
  }

  lemma {:induction false} OutTurnKeeps(s: State, r: Submit, halted: bool, count: nat)
    requires Serving(s, r) && s.link.gathered == []
    ensures Inv(OutTurn(s, r, halted, count).state) && AttachedFirst(OutTurn(s, r, halted, count).state)
    ensures Flushed(OutTurn(s, r, halted, count).state)
    ensures OutTurn(s, r, halted, count).flow.Continue? ==>
              Serving(OutTurn(s, r, halted, count).state, r) && OutTurn(s, r, halted, count).state.link.gathered == []
  {
    hide Inv, Flushed, Call, DeviceLoop;
    var s1 := Read(s, count);
    ReadKeeps(s, count);
    if s1.flow.Continue? {
      var bytes := s.link.input[..count];
      OutCallKeeps(s1.state, r.ep, bytes);
      var s2 := if halted then Run(s1.state, Continue) else Call(s1.state, OutData(r.ep, bytes));
      StillServing(s1.state, s2.state, r);
      if s2.flow.Continue? {
        DeviceLoopServing(s2.state, r);
      }
    }
  }

  lemma {:induction false} OutLoopKeeps(s: State, r: Submit, halted: bool, data: seq<byte>)
    requires Serving(s, r) && r.direction == 0 && s.link.gathered == [] && (halted ==> r.ep != 0)
    ensures Served(OutLoop(s, r, halted, data))
    decreases |s.script|
  {
    hide Inv, Flushed, OutTurn, FinishOut;
    if |data| >= r.length {
      FinishOutKeeps(s, r, halted);
    } else {
      var count := OutCount(s, r, |data|);
      OutTurnKeeps(s, r, halted, count);
      var s1 := OutTurn(s, r, halted, count);
      if s1.flow.Continue? {
        OutLoopKeeps(s1.state, r, halted, data + s.link.input[..count]);
      }
    }
  }

  // ----------------------------------------------------------------- IN data

  lemma {:induction false} FinishInKeeps(s: State, r: Submit, status: uint32)
    requires Serving(s, r) && r.direction == 1 && |s.link.gathered| <= Capacity(r)
    requires status in {STATUS_OK, NEG_EPIPE, NEG_ETIMEDOUT}
    ensures Served(FinishIn(s, r, status))
  {
    hide Inv, Flushed, Call, Answer;
    OutCallKeeps(s, 0, []);
    StillServing(s, Call(s, OutData(0, [])).state, r);
    var s1 := if r.ep == 0 then Call(s, OutData(0, [])) else Run(s, Continue);
    if s1.flow.Continue? {
      AnswerKeeps(s1.state, r, status, |s.link.gathered|);
    }
  }

  lemma {:induction false} GatherTurnKeeps(s: State, r: Submit, capacity: nat, started: uint32)
    requires Serving(s, r) && |s.link.gathered| <= capacity <= TX_BUFFER_BYTES
    ensures Serving(GatherTurn(s, r, capacity, started).run.state, r)
    ensures GatherTurn(s, r, capacity, started).status.Some? ==>
              GatherTurn(s, r, capacity, started).status.value in {STATUS_OK, NEG_EPIPE, NEG_ETIMEDOUT}
  {
    hide Inv, Flushed, Call, DeviceLoop;
    DeviceLoopServing(s, r);
    var d := DeviceLoop(s);
    if d.flow.Continue? {
      var p := d.state.ports[r.ep];
      if p.pending && !p.haltedIn && |p.packet| <= capacity - |s.link.gathered| {
        TakenKeeps(d.state, r);
      } else {
        ReadingKeeps(d.state);
        StillServing(d.state, Ticked(d.state), r);
      }
    }
  }

  lemma {:induction false} GatherKeeps(s: State, r: Submit, capacity: nat, started: uint32)
    requires Serving(s, r) && r.direction == 1 && |s.link.gathered| <= capacity == Capacity(r)
    ensures Served(Gather(s, r, capacity, started))
    decreases |s.script|
  {
    hide Inv, Flushed, FinishIn, GatherTurn;
    if |s.link.gathered| >= capacity {
      FinishInKeeps(s, r, STATUS_OK);
    } else {
      var t := GatherTurn(s, r, capacity, started);
      GatherTurnBounded(s, r, capacity, started);
      GatherTurnKeeps(s, r, capacity, started);
      if t.run.flow.Continue? {
        if t.status.Some? {
          FinishInKeeps(t.run.state, r, t.status.value);
        } else {
          GatherKeeps(t.run.state, r, capacity, started);
        }
      }
    }
  }

  // ---------------------------------------------------------------- requests

  lemma {:induction false} ParkedLink(ps: Ports, l: Link, r: Submit)
    requires LinkInv(ps, l) && l.current == Some(r) && l.gathered == [] && r.ep < 4
    requires !ps[r.ep].endpoint.hostReady
    ensures LinkInv(ps[r.ep := Parked(ps[r.ep], r)], l.(current := None))
  {
    hide RepliesOk, OutputOk, CancelsOk, Balanced, ConservedAt;
    var q := Parked(ps[r.ep], r);
    BalancedPark(l.consumed, l.replies, ps, l.cancelled, r, r.ep);
    forall e: Ep ensures ConservedAt(ps[e], l.replies, None, [], e) {
      assert ConservedAt(ps[e], l.replies, l.current, l.gathered, e);
      ConservedNothing(ps[e], l.replies, r, e);
    }
    assert Conserved(ps, l.replies, None, []);
    ShippedSame(ps[r.ep].ledger, q.ledger);
    ConservedSame(ps, r.ep, q, l.replies, None, []);
  }

  lemma {:induction false} ConservedNothing(p: Port, rs: seq<Reply>, r: Submit, ep: Ep)
    ensures ConservedAt(p, rs, Some(r), [], ep) == ConservedAt(p, rs, None, [], ep)
  {
    hide ShippedOf, Payloads, Flatten;
  }

  lemma {:induction false} ParkedPortOk(ep: Ep, p: Port, r: Submit)
    requires PortOk(ep, p) && r.ep == ep && r.direction == 1 && p.endpoint.kind == KIND_INTR
    ensures PortOk(ep, Parked(p, r))
  {
    hide TakenCount;
  }

  lemma {:induction false} ParkKeeps(s: State, r: Submit)
    requires Serving(s, r) && s.link.gathered == []
    requires IsInterruptIn(s, r) && !s.ports[r.ep].endpoint.hostReady
    ensures Served(Run(ParkedState(s, r), Continue))
  {
    hide PortOk, PortsOk, LinkInv, EncodeReplies;
    PortsOkAt(s.ports, r.ep);
    ParkedPortOk(r.ep, s.ports[r.ep], r);
    SetPortOk(s.ports, r.ep, Parked(s.ports[r.ep], r));
    ParkedLink(s.ports, s.link, r);
  }

  /** Setup drops what a previous control transfer left staged on endpoint 0. */
  lemma {:induction false} SetupKeeps(s: State, setup: seq<byte>)
    requires Inv(s)
    ensures Inv(Call(SetRetired(s, 0, Discarded(NewSetup)), SetupStage(setup)).state)
    ensures SameConnection(s, Call(SetRetired(s, 0, Discarded(NewSetup)), SetupStage(setup)).state)
  {
    hide Inv, PortOk, Call, ShippedOf;
    InvAt(s, 0);
    RetiredOk(0, s.ports[0], Discarded(NewSetup));
    QuietSet(s, 0, Retired(s.ports[0], Discarded(NewSetup)));
    PlainCallKeeps(SetRetired(s, 0, Discarded(NewSetup)), SetupStage(setup));
    CallLink(SetRetired(s, 0, Discarded(NewSetup)), SetupStage(setup));
  }

  lemma {:induction false} TransferKeeps(s: State, r: Submit)
    requires Serving(s, r) && Acceptable(s, r) && s.link.gathered == []
    ensures Served(Transfer(s, r))
  {
    hide Inv, Flushed, Call, Answer, Gather, OutLoop;
    var p := s.ports[r.ep];
    if IsInterruptIn(s, r) && p.endpoint.hostReady {
      AnswerKeeps(s, r, NEG_EBUSY, 0);
    } else if IsInterruptIn(s, r) && !p.pending && !p.haltedIn {
      ParkKeeps(s, r);
    } else {
      SetupKeeps(s, r.setup);
      var s1 := if r.ep == 0 then Call(SetRetired(s, 0, Discarded(NewSetup)), SetupStage(r.setup)) else Run(s, Continue);
      StillServing(s, s1.state, r);
      if s1.flow.Continue? {
        if r.direction == 0 {
          OutLoopKeeps(s1.state, r, r.ep != 0 && s1.state.ports[r.ep].haltedOut, []);
        } else {
          ReadingKeeps(s1.state);
          StillServing(s1.state, Ticked(s1.state), r);
          GatherKeeps(Ticked(s1.state), r, Capacity(r), Now(s1.state));
        }
      }
    }
  }

  lemma {:induction false} BegunKeeps(s: State, r: Submit)
    requires Inv(s) && AtHead(s)
    ensures Inv(Begun(s, r)) && Flushed(Begun(s, r))
  {
    hide PortsOk, RepliesOk, OutputOk, CancelsOk, Balanced, ConservedAt, EncodeReplies;
    var l := s.link;
    BalancedBegin(l.consumed, l.replies, s.ports, l.cancelled, r);
    forall e: Ep ensures ConservedAt(s.ports[e], l.replies, Some(r), [], e) {
      assert ConservedAt(s.ports[e], l.replies, l.current, l.gathered, e);
      ConservedNothing(s.ports[e], l.replies, r, e);
    }
  }

  lemma {:induction false} SubmitKeeps(s: State)
    requires Inv(s) && AtHead(s)
    ensures Served(ServeSubmit(s))
  {
    hide Inv, Flushed, Transfer, DecodeSubmit;
    ReadKeeps(s, BODY_BYTES);
    var s1 := Read(s, BODY_BYTES);
    if s.attached && s1.flow.Continue? {
      var r := DecodeSubmit(s.link.input[..BODY_BYTES]);
      BegunKeeps(s1.state, r);
      var s2 := Begun(s1.state, r);
      if Acceptable(s2, r) {
        TransferKeeps(s2, r);
      }
    }
  }

  lemma {:induction false} UnlinkCancelsCount(p: Port, target: uint32, x: Submit)
    ensures CountCancelled(UnlinkCancels(p, target), x) + ParkedAt(UnlinkPort(p, target), x) == ParkedAt(p, x)
  {
    CancelParkedCount(p, Unlinked(target), x);
  }

  lemma {:induction false} UnlinkedWaiting(s: State, target: uint32)
    ensures SameWaiting(s.ports, s.link.cancelled, UnlinkedState(s, target).ports, UnlinkedState(s, target).link.cancelled)
  {
    hide ParkedAt, CountCancelled, UnlinkCancels, UnlinkPort;
    var t := UnlinkedState(s, target);
    var ps := s.ports;
    var a, b, c, d := UnlinkCancels(ps[0], target), UnlinkCancels(ps[1], target),
                      UnlinkCancels(ps[2], target), UnlinkCancels(ps[3], target);
    forall x: Submit ensures Waiting(ps, s.link.cancelled, x) == Waiting(t.ports, t.link.cancelled, x) {
      CancelledAppend(s.link.cancelled, a + b + c + d, x);
      CancelledAppend(a + b + c, d, x);
      CancelledAppend(a + b, c, x);
      CancelledAppend(a, b, x);
      UnlinkCancelsCount(ps[0], target, x);
      UnlinkCancelsCount(ps[1], target, x);
      UnlinkCancelsCount(ps[2], target, x);
      UnlinkCancelsCount(ps[3], target, x);
    }
  }

  lemma {:induction false} UnlinkPortOk(ep: Ep, p: Port, target: uint32)
    requires PortOk(ep, p)
    ensures PortOk(ep, UnlinkPort(p, target)) && QuietPort(p, UnlinkPort(p, target))
    ensures CancelsOk(UnlinkCancels(p, target))
  {
    hide TakenCount, ShippedPackets;
  }

  lemma {:induction false} UnlinkedKeeps(s: State, target: uint32)
    requires Inv(s)
    ensures Inv(UnlinkedState(s, target)) && Quiet(s, UnlinkedState(s, target))
  {
    hide PortOk, QuietPort, LinkInv, SameWaiting, CancelsOk, UnlinkCancels, UnlinkPort;
    var t := UnlinkedState(s, target);
    var ps := s.ports;
    UnlinkedWaiting(s, target);
    forall ep: Ep ensures PortOk(ep, t.ports[ep]) && QuietPort(ps[ep], t.ports[ep]) && CancelsOk(UnlinkCancels(ps[ep], target)) {
      UnlinkPortOk(ep, ps[ep], target);
      assert t.ports[ep] == UnlinkPort(ps[ep], target);
    }
    LinkInvCancels(ps, s.link);
    CancelsAppend(UnlinkCancels(ps[0], target), UnlinkCancels(ps[1], target));
    CancelsAppend(UnlinkCancels(ps[0], target) + UnlinkCancels(ps[1], target), UnlinkCancels(ps[2], target));
    CancelsAppend(UnlinkCancels(ps[0], target) + UnlinkCancels(ps[1], target) + UnlinkCancels(ps[2], target), UnlinkCancels(ps[3], target));
    CancelsAppend(s.link.cancelled, UnlinkCancels(ps[0], target) + UnlinkCancels(ps[1], target) + UnlinkCancels(ps[2], target)
                                    + UnlinkCancels(ps[3], target));
    QuietKeeps(s, t);
  }

  lemma {:induction false} StillHead(s: State, t: State)
    requires AtHead(s) && SameConnection(s, t)
    ensures AtHead(t)
  {
    hide EncodeReplies;
  }

  lemma {:induction false} UnlinkKeeps(s: State)
    requires Inv(s) && AtHead(s)
    ensures Served(ServeUnlink(s))
  {
    hide Inv, Flushed, Send, DecodeUnlink, UnlinkStatus, UnlinkedState;
    ReadKeeps(s, BODY_BYTES);
    var s1 := Read(s, BODY_BYTES);
    if s1.flow.Continue? {
      var u := DecodeUnlink(s.link.input[..BODY_BYTES]);
      var reply := RetUnlink(u.seqNum, UnlinkStatus(s1.state.ports, u.target));
      SendOtherKeeps(s1.state, reply);
      var s2 := Send(s1.state, reply);
      if s2.flow.Continue? {
        UnlinkedKeeps(s2.state, u.target);
        QuietHead(s2.state, UnlinkedState(s2.state, u.target));
      }
    }
  }

  lemma {:induction false} QuietHead(s: State, t: State)
    requires AtHead(s) && Quiet(s, t)
    ensures AtHead(t)
  {
    hide EncodeReplies, QuietPorts, SameWaiting;
  }

  lemma {:induction false} AttachKeeps(s: State)
    requires Inv(s) && AtHead(s)
    ensures Served(Attach(s))
  {
    hide PortsOk, LinkInv, EncodeReplies, Call, QuietPorts, SameWaiting;
    var s1 := Call(s, BootReset);
    PlainCallKeeps(s, BootReset);
    if s1.flow.Continue? {
      var s2 := Call(s1.state, SetupStage(ADDRESS_SETUP));
      PlainCallKeeps(s1.state, SetupStage(ADDRESS_SETUP));
      if s2.flow.Continue? && s2.state.ports[0].pending && s2.state.ports[0].packet == [] {
        AcknowledgeKeeps(s2.state, 0);
      }
    }
  }

  lemma {:induction false} ImportKeeps(s: State)
    requires Inv(s) && AtHead(s)
    ensures Served(ServeImport(s))
  {
    hide LinkInv, PortsOk, Flushed, Send, Attach;
    ReadKeeps(s, 4);
    var s1 := Read(s, 4);
    if s1.flow.Continue? {
      ReadKeeps(s1.state, 32);
      var s2 := Read(s1.state, 32);
      if s2.flow.Continue? {
        var body := Zeros(4) + s.tables.path + s1.state.link.input[..32] + s.tables.device;
        assert |body| == IMPORT_BYTES;
        SendOtherKeeps(s2.state, RetImport(body));
        var s3 := Send(s2.state, RetImport(body));
        if s3.flow.Continue? {
          AttachKeeps(s3.state);
        }
      }
    }
  }

  lemma {:induction false} DevListKeeps(s: State)
    requires Inv(s) && AtHead(s)
    ensures Served(ServeDevList(s))
  {
    hide LinkInv, PortsOk, Flushed, Send;
    ReadKeeps(s, 4);
    var s1 := Read(s, 4);
    if s1.flow.Continue? {
      SendOtherKeeps(s1.state, RetDevList(s.tables.devlist));
    }
  }

  // -------------------------------------------------------------- whole runs

  /** Recording where a command starts, or a poll, changes nothing the invariant speaks of. */
  lemma {:induction false} BookkeepingKeeps(s: State, heads: seq<nat>, polls: seq<Poll>)
    requires Inv(s) && AtHead(s)
    ensures
      var t := s.(link := s.link.(heads := heads, polls := polls));
      Inv(t) && AtHead(t)
  {
    hide PortsOk, RepliesOk, OutputOk, CancelsOk, BufferOk, Conserved, Balanced, EncodeReplies;
  }

  lemma {:induction false} DispatchKeeps(s: State)
    requires Inv(s) && AtHead(s)
    ensures Served(Dispatch(s))
  {
    hide Inv, Flushed, ServeDevList, ServeImport, ServeSubmit, ServeUnlink;
    var s0 := s.(link := s.link.(heads := s.link.heads + [|s.link.received|]));
    BookkeepingKeeps(s, s0.link.heads, s.link.polls);
    ReadKeeps(s0, 4);
    var s1 := Read(s0, 4);
    if s1.flow.Continue? {
      DevListKeeps(s1.state);
      ImportKeeps(s1.state);
      SubmitKeeps(s1.state);
      UnlinkKeeps(s1.state);
    }
  }

  lemma {:induction false} CompleteKeeps(s: State)
    requires Inv(s) && AtHead(s)
    ensures Served(CompleteInterrupts(s))
  {
    hide Inv, Flushed, CompleteFrom;
    CompleteFromKeeps(s, 1);
  }

  /** Every state a connection can be observed in satisfies the invariant, whatever the device,
      the host, the clock and the network do, and its output is whole frames until a write fails. */
  lemma {:induction false} ServeKeeps(s: State)
    requires Inv(s) && AtHead(s)
    ensures Inv(Serve(s).state) && AttachedFirst(Serve(s).state) && Written(Serve(s).state)
    decreases |s.script|
  {
    hide Inv, Flushed, DeviceLoop, CompleteInterrupts, Dispatch, Quiet;
    DeviceLoopKeeps(s);
    DeviceLoopLink(s);
    StillHead(s, DeviceLoop(s).state);
    var s1 := DeviceLoop(s);
    if s1.flow.Continue? {
      CompleteKeeps(s1.state);
      var s2 := CompleteInterrupts(s1.state);
      if s2.flow.Continue? && s2.state.link.polls != [] {
        var s3 := Polled(s2.state);
        BookkeepingKeeps(s2.state, s2.state.link.heads, s3.link.polls);
        if s2.state.link.polls[0].Nothing? {
          ServeKeeps(s3);
        } else if s2.state.link.polls[0].Ready? {
          DispatchKeeps(s3);
          if Dispatch(s3).flow.Continue? {
            ServeKeeps(Dispatch(s3).state);
          }
        }
      }
    }
  }
}
