/** Interrupt requests: who may be parked, what a completion pass leaves, what an unlink does. */
module Interrupts {
  import opened Bytes
  import opened Wire
  import opened Model
  import opened Adapter
  import opened Ledgers
  import opened Callbacks
  import opened Invariants
  import opened Guarantees

  /** Only IN requests to interrupt endpoints are ever parked, each on its own endpoint, and the slot
      holds the request parked there last. */
  lemma {:induction false} OnlyInterruptInParks(s: State, ep: Ep)
    requires Inv(s) && s.ports[ep].endpoint.hostReady
    ensures
      var r := s.ports[ep].endpoint.intrIn;
      && KindOf(ep) == KIND_INTR && r.ep == ep && r.direction == 1
      && r == LastParked(s.ports[ep].ledger) && r in s.link.consumed
  {
    hide LinkInv, TakenCount;
    InvAt(s, ep);
    var r := s.ports[ep].endpoint.intrIn;
    assert r in s.ports[ep].ledger.parked;
    assert IsParked(s.ports, r);
    HeldWasRead(s, r);
  }

  // ---------------------------------------------------------- completion pass

  /** A parked request and a staged packet would wait for each other. */
  predicate Quiescent(p: Port) {
    !(p.endpoint.hostReady && p.pending)
  }

  predicate AllQuiescent(ps: Ports) {
    forall ep: Ep :: Quiescent(ps[ep])
  }

  /** The device stages a packet on this endpoint and does not stop afterwards. */
  predicate StagesLast(cs: seq<Callback>, ep: Ep) {
    exists j :: 0 <= j < |cs| && cs[j].Write? && cs[j].ep == ep && forall k :: j < k < |cs| ==> !cs[k].Stop?
  }

  predicate ClosesIn(cs: seq<Callback>, ep: Ep) {
    exists j :: 0 <= j < |cs| && cs[j] == Close(ep, true)
  }

  /** In its next upcall the device leaves a packet on this endpoint, and the endpoint open. */
  predicate NextStages(s: State, ep: Ep) {
    s.script != [] && StagesLast(s.script[0], ep) && !ClosesIn(s.script[0], ep)
  }

  lemma {:induction false} ApplySlot(s: State, c: Callback, ep: Ep)
    requires Apply(s, c).flow.Continue?
    ensures
      var p, q := s.ports[ep], Apply(s, c).state.ports[ep];
      && q.endpoint.hostReady == (p.endpoint.hostReady && c != Close(ep, true))
      && q.pending == ((c.Write? && c.ep == ep) || (p.pending && !c.Stop? && c != Close(ep, true)))
  {
    hide KindOf, PacketBytes, CancelParked;
    match c
    case Close(e, dirIn) => assert c == Close(ep, true) <==> e == ep && dirIn;
    case _ =>
  }

  lemma {:induction false} StagesLastStep(cs: seq<Callback>, ep: Ep)
    requires cs != []
    ensures StagesLast(cs, ep) <==>
            StagesLast(cs[1..], ep) || (cs[0].Write? && cs[0].ep == ep && forall k :: 0 <= k < |cs[1..]| ==> !cs[1..][k].Stop?)
    ensures ClosesIn(cs, ep) <==> cs[0] == Close(ep, true) || ClosesIn(cs[1..], ep)
  {
    if StagesLast(cs[1..], ep) {
      var j :| 0 <= j < |cs[1..]| && cs[1..][j].Write? && cs[1..][j].ep == ep && forall k :: j < k < |cs[1..]| ==> !cs[1..][k].Stop?;
      forall k | j + 1 < k < |cs| ensures !cs[k].Stop? {
        assert cs[k] == cs[1..][k - 1];
      }
      assert cs[j + 1].Write?;
    }
    if j :| 0 <= j < |cs[1..]| && cs[1..][j] == Close(ep, true) {
      assert cs[j + 1] == Close(ep, true);
    }
    if j :| 0 < j < |cs| && cs[j].Write? && cs[j].ep == ep && forall k :: j < k < |cs| ==> !cs[k].Stop? {
      assert cs[1..][j - 1].Write?;
    }
    if j :| 0 < j < |cs| && cs[j] == Close(ep, true) {
      assert cs[1..][j - 1] == Close(ep, true);
    }
  }

  /** What an upcall leaves in the slot of an endpoint that the device does not close. */
  lemma {:induction false} ApplyAllSlot(s: State, cs: seq<Callback>, ep: Ep)
    requires ApplyAll(s, cs).flow.Continue?
    ensures
      var p, q := s.ports[ep], ApplyAll(s, cs).state.ports[ep];
      && q.endpoint.hostReady == (p.endpoint.hostReady && !ClosesIn(cs, ep))
      && (!ClosesIn(cs, ep) ==>
            (q.pending <==> StagesLast(cs, ep) || (p.pending && forall k :: 0 <= k < |cs| ==> !cs[k].Stop?)))
    decreases |cs|
  {
    hide Apply, StagesLast, ClosesIn;
    if cs == [] {
      NoCallbacks(ep);
    } else {
      var r := Apply(s, cs[0]);
      ApplySlot(s, cs[0], ep);
      StagesLastStep(cs, ep);
      ApplyAllSlot(r.state, cs[1..], ep);
      StopsStep(cs);
    }
  }

  lemma {:induction false} NoCallbacks(ep: Ep)
    ensures !StagesLast([], ep) && !ClosesIn([], ep)
  {}

  lemma {:induction false} StopsStep(cs: seq<Callback>)
    requires cs != []
    ensures (forall k :: 0 <= k < |cs| ==> !cs[k].Stop?) <==> !cs[0].Stop? && forall k :: 0 <= k < |cs[1..]| ==> !cs[1..][k].Stop?
  {
    if !cs[0].Stop? && forall k :: 0 <= k < |cs[1..]| ==> !cs[1..][k].Stop? {
      forall k | 0 <= k < |cs| ensures !cs[k].Stop? {
        if k > 0 {
          assert cs[k] == cs[1..][k - 1];
        }
      }
    }
  }

  lemma {:induction false} CallSlot(s: State, u: Upcall, ep: Ep)
    requires u.InDone? ==> !s.ports[u.ep].pending
    requires Call(s, u).flow.Continue? && Quiescent(s.ports[ep])
    ensures !Quiescent(Call(s, u).state.ports[ep]) <==> s.ports[ep].endpoint.hostReady && NextStages(s, ep)
  {
    hide ApplyAll, StagesLast, ClosesIn;
    ApplyAllSlot(Noted(s, u).(script := s.script[1..]), s.script[0], ep);
  }

  /** One endpoint of the pass: it is quiescent afterwards, and no endpoint gains a request. */
  lemma {:induction false} CompleteOneSettles(s: State, ep: Ep)
    requires Inv(s) && AtHead(s) && CompleteOne(s, ep).flow.Continue?
    ensures
      var t := CompleteOne(s, ep).state;
      && Quiescent(t.ports[ep])
      && (forall e: Ep :: t.ports[e].endpoint.hostReady ==> s.ports[e].endpoint.hostReady)
      && (Quiescent(s.ports[ep]) ==> t == s)
      && (forall e: Ep :: e != ep && Quiescent(s.ports[e]) ==>
            (!Quiescent(t.ports[e]) <==> !Quiescent(s.ports[ep]) && s.ports[e].endpoint.hostReady && NextStages(s, e)))
  {
    hide PortOk, PortsOk, LinkInv, EncodeReply, EncodeReplies, Call, QuietPort, StagesLast, ClosesIn;
    var p := s.ports[ep];
    if p.endpoint.hostReady && p.pending {
      var reply := ParkedReply(p);
      var s1 := Send(s, reply).state;
      var t0 := SetPort(s1, ep, Retired(Unparked(p), Shipped));
      PortsOkAt(s.ports, ep);
      CompletedLink(s.ports, s.link, s1.link, ep);
      UnparkedOk(ep, p);
      CompletedOk(ep, Unparked(p), Shipped);
      SetPortOk(s.ports, ep, Completed(Unparked(p), Shipped));
      assert Noted(t0, InDone(ep)).ports == s.ports[ep := Completed(Unparked(p), Shipped)];
      CallKeeps(t0, InDone(ep));
      var t := Call(t0, InDone(ep)).state;
      forall e: Ep ensures t.ports[e].endpoint.hostReady ==> Noted(t0, InDone(ep)).ports[e].endpoint.hostReady {
        assert QuietPort(Noted(t0, InDone(ep)).ports[e], t.ports[e]);
        QuietReady(Noted(t0, InDone(ep)).ports[e], t.ports[e]);
      }
      forall e: Ep | e != ep && Quiescent(s.ports[e])
        ensures !Quiescent(t.ports[e]) <==> s.ports[e].endpoint.hostReady && NextStages(s, e)
      {
        CallSlot(t0, InDone(ep), e);
      }
    }
  }

  lemma {:induction false} QuietReady(p: Port, q: Port)
    requires QuietPort(p, q)
    ensures q.endpoint.hostReady ==> p.endpoint.hostReady
  {}

  /** After a completion pass no endpoint has both a parked request and a staged packet, except
      endpoint 1, which the pass has left behind when it comes to endpoint 2: it has both exactly
      when its request still waits, endpoint 2 completes, and the device uses that completion to
      stage a packet on endpoint 1. */
  lemma {:induction false} PassSettles(s: State)
    requires Inv(s) && AtHead(s) && s.attached && CompleteInterrupts(s).flow.Continue?
    ensures
      var s1 := CompleteOne(s, 1).state;
      var t := CompleteInterrupts(s).state;
      && (forall ep: Ep :: ep != 1 ==> Quiescent(t.ports[ep]))
      && (!Quiescent(t.ports[1]) <==>
            s1.ports[1].endpoint.hostReady && !Quiescent(s1.ports[2]) && NextStages(s1, 1))
  {
    hide Inv, Flushed, CompleteOne, NextStages;
    var s1 := CompleteOne(s, 1);
    CompleteOneKeeps(s, 1);
    CompleteOneSettles(s, 1);
    var s2 := CompleteOne(s1.state, 2);
    CompleteOneKeeps(s1.state, 2);
    CompleteOneSettles(s1.state, 2);
    var s3 := CompleteOne(s2.state, 3);
    CompleteOneSettles(s2.state, 3);
    NeverReady(s2.state, 3);
    NeverReady(s3.state, 0);
    assert CompleteInterrupts(s) == CompleteFrom(s, 1);
    assert CompleteFrom(s, 1) == CompleteFrom(s1.state, 2);
    assert CompleteFrom(s1.state, 2) == CompleteFrom(s2.state, 3);
    CompleteOneKeeps(s2.state, 3);
    assert CompleteFrom(s2.state, 3) == CompleteFrom(s3.state, 4);
    assert s3.state == s2.state;
    forall ep: Ep | ep != 1 ensures Quiescent(s3.state.ports[ep]) {
      if ep == 0 || ep == 3 {
        NeverReady(s3.state, ep);
      }
    }
  }

  lemma {:induction false} NeverReady(s: State, ep: Ep)
    requires Inv(s) && (ep == 0 || ep == 3)
    ensures !s.ports[ep].endpoint.hostReady
  {
    hide LinkInv, TakenCount;
    InvAt(s, ep);
  }

  predicate StagesOnlyOn(cs: seq<Callback>, ep: Ep) {
    forall j :: 0 <= j < |cs| && cs[j].Write? ==> cs[j].ep == ep
  }

  /** A device that stages only on the endpoint whose completion it is told of never leaves a parked
      request and a staged packet waiting for each other. Only the completion of endpoint 2 matters. */
  lemma {:induction false} OwnStagingSettles(s: State)
    requires Inv(s) && AtHead(s) && s.attached && CompleteInterrupts(s).flow.Continue?
    requires
      var s1 := CompleteOne(s, 1).state;
      !Quiescent(s1.ports[2]) && s1.script != [] ==> StagesOnlyOn(s1.script[0], 2)
    ensures AllQuiescent(CompleteInterrupts(s).state.ports)
  {
    hide Inv, Flushed, CompleteOne, CompleteInterrupts, Quiescent;
    PassSettles(s);
  }

  /** The exception is real: a device that answers the completion of endpoint 2 by staging a packet on
      endpoint 1 leaves endpoint 1 with both. */
  lemma {:induction false} PassMayLeaveWork(s: State, bytes: seq<byte>)
    requires s.ports[1].endpoint.hostReady && !s.ports[1].pending && |bytes| <= s.ports[1].endpoint.mps
    requires s.ports[2].endpoint.hostReady && s.ports[2].pending
    requires !s.ports[3].endpoint.hostReady && s.attached
    requires |s.ports[2].packet| <= s.ports[2].endpoint.intrIn.length
    requires |EncodeReply(ParkedReply(s.ports[2]))| <= s.link.budget
    requires s.script != [] && s.script[0] == [Write(1, bytes)]
    ensures CompleteInterrupts(s).flow.Continue?
    ensures !Quiescent(CompleteInterrupts(s).state.ports[1])
  {
    hide EncodeReply;
    assert CompleteOne(s, 1) == Run(s, Continue);
    var p := s.ports[2];
    var s1 := Send(s, ParkedReply(p)).state;
    var t0 := SetPort(s1, 2, Retired(Unparked(p), Shipped));
    var t1 := Noted(t0, InDone(2)).(script := s.script[1..]);
    assert s.script[0][1..] == [];
    var t2 := SetPort(t1, 1, Staged(t1.ports[1], bytes));
    assert ApplyAll(t2, []) == Run(t2, Continue);
    assert ApplyAll(t1, s.script[0]) == Run(t2, Continue);
    assert CompleteOne(s, 2) == Run(t2, Continue);
    assert CompleteOne(t2, 3) == Run(t2, Continue);
    assert CompleteFrom(t2, 3) == CompleteFrom(t2, 4);
    assert CompleteFrom(s, 2) == CompleteFrom(t2, 3);
    assert CompleteFrom(s, 1) == CompleteFrom(s, 2);
  }

  // ------------------------------------------------------------------ unlink

  /** A request with this sequence number is parked. */
  predicate TargetParked(ps: Ports, target: uint32) {
    exists ep :: 0 <= ep < 4 && ps[ep].endpoint.hostReady && ps[ep].endpoint.intrIn.seqNum == target
  }

  /** What usbip_unlink does, whatever it is sent: it cancels exactly the parked requests with the
      number, leaves every other request and every packet alone, and reports -ECONNRESET (-104) when
      the number is that of the last request parked on some endpoint (zero where there was none), and
      0 otherwise; so status 0 is only ever reported for a number that is not parked. */
  lemma {:induction false} UnlinkCancelsTarget(s: State)
    requires Inv(s) && AtHead(s) && ServeUnlink(s).flow.Continue?
    ensures
      var t := ServeUnlink(s).state;
      var u := DecodeUnlink(s.link.input[..BODY_BYTES]);
      var remembered := exists ep: Ep :: LastParked(s.ports[ep].ledger).seqNum == u.target;
      && t.link.replies == s.link.replies + [RetUnlink(u.seqNum, if remembered then 0x1_0000_0000 - 104 else 0)]
      && (TargetParked(s.ports, u.target) ==> remembered)
      && !TargetParked(t.ports, u.target)
      && (forall ep: Ep ::
            t.ports[ep] == s.ports[ep].(endpoint := s.ports[ep].endpoint.(
              hostReady := s.ports[ep].endpoint.hostReady && s.ports[ep].endpoint.intrIn.seqNum != u.target)))
      && (forall x: Submit :: CountCancelled(t.link.cancelled, x) ==
            CountCancelled(s.link.cancelled, x) + if x.seqNum == u.target then CountParked(s.ports, x) else 0)
  {
    hide PortOk, LinkInv, EncodeReply, DecodeUnlink, CountCancelled, UnlinkStatus, UnlinkCancels;
    var s1 := Read(s, BODY_BYTES).state;
    var u := DecodeUnlink(s.link.input[..BODY_BYTES]);
    var status := UnlinkStatus(s1.ports, u.target);
    var s2 := Send(s1, RetUnlink(u.seqNum, status)).state;
    var t := UnlinkedState(s2, u.target);
    StatusMeaning(s, u.target);
    forall ep: Ep ensures t.ports[ep] == UnlinkPort(s.ports[ep], u.target) {}
    forall x: Submit
      ensures CountCancelled(t.link.cancelled, x) ==
              CountCancelled(s.link.cancelled, x) + if x.seqNum == u.target then CountParked(s.ports, x) else 0
    {
      UnlinkCounts(s2, u.target, x);
    }
  }

  lemma {:induction false} StatusMeaning(s: State, target: uint32)
    requires Inv(s)
    ensures UnlinkStatus(s.ports, target) ==
            if exists ep: Ep :: LastParked(s.ports[ep].ledger).seqNum == target then 0x1_0000_0000 - 104 else 0
    ensures TargetParked(s.ports, target) ==> UnlinkStatus(s.ports, target) == NEG_ECONNRESET
  {
    hide LinkInv, TakenCount;
    forall ep: Ep ensures s.ports[ep].endpoint.intrIn == LastParked(s.ports[ep].ledger) {
      InvAt(s, ep);
    }
    if UnlinkHits(s.ports, target) {
      var ep :| 0 <= ep < 4 && s.ports[ep].endpoint.intrIn.seqNum == target;
      var e: Ep := ep;
      assert LastParked(s.ports[e].ledger).seqNum == target;
    }
    if e: Ep :| LastParked(s.ports[e].ledger).seqNum == target {
      assert s.ports[e].endpoint.intrIn.seqNum == target;
    }
  }

  lemma {:induction false} UnlinkCountAt(p: Port, target: uint32, x: Submit)
    ensures CountCancelled(UnlinkCancels(p, target), x) == if x.seqNum == target then ParkedAt(p, x) else 0
  {
    CancelParkedCount(p, Unlinked(target), x);
  }

  lemma {:induction false} UnlinkCounts(s: State, target: uint32, x: Submit)
    ensures CountCancelled(UnlinkedState(s, target).link.cancelled, x) ==
            CountCancelled(s.link.cancelled, x) + if x.seqNum == target then CountParked(s.ports, x) else 0
  {
    hide ParkedAt, CountCancelled, UnlinkCancels, UnlinkPort;
    var ps := s.ports;
    var a, b, c, d := UnlinkCancels(ps[0], target), UnlinkCancels(ps[1], target),
                      UnlinkCancels(ps[2], target), UnlinkCancels(ps[3], target);
    CancelledAppend(s.link.cancelled, a + b + c + d, x);
    CancelledAppend(a + b + c, d, x);
    CancelledAppend(a + b, c, x);
    CancelledAppend(a, b, x);
    UnlinkCountAt(ps[0], target, x);
    UnlinkCountAt(ps[1], target, x);
    UnlinkCountAt(ps[2], target, x);
    UnlinkCountAt(ps[3], target, x);
  }

  /** The protocol reserves -ECONNRESET for a request that was still pending. The server keeps to that
      except for numbers that an endpoint remembers after its request is gone: the status is wrong
      exactly when some endpoint without a waiting request was last given this number (or was never
      given any and the number is zero), and no endpoint waits with it. */
  lemma {:induction false} UnlinkStatusIsRight(s: State, target: uint32)
    requires Inv(s)
    ensures UnlinkStatus(s.ports, target) in {0, 0x1_0000_0000 - 104}
    ensures
      (UnlinkStatus(s.ports, target) == 0x1_0000_0000 - 104 <==> TargetParked(s.ports, target)) <==>
      (TargetParked(s.ports, target)
       || forall ep: Ep :: s.ports[ep].endpoint.hostReady || LastParked(s.ports[ep].ledger).seqNum != target)
  {
    hide LinkInv, PortOk, LastParked;
    StatusMeaning(s, target);
    forall ep: Ep ensures s.ports[ep].endpoint.intrIn == LastParked(s.ports[ep].ledger) {
      InvSlot(s, ep);
    }
    if e: Ep :| LastParked(s.ports[e].ledger).seqNum == target && s.ports[e].endpoint.hostReady {
      assert TargetParked(s.ports, target);
    }
  }

  lemma {:induction false} InvSlot(s: State, ep: Ep)
    requires Inv(s)
    ensures s.ports[ep].endpoint.intrIn == LastParked(s.ports[ep].ledger)
  {
    hide LinkInv, TakenCount;
    InvAt(s, ep);
  }

  /** It happens on every run: right after a parked request has been answered, unlinking it is still
      reported as -ECONNRESET, although its RET_SUBMIT has been sent. */
  lemma {:induction false} AnsweredIsReportedReset(s: State, ep: Ep)
    requires Inv(s) && AtHead(s) && CompleteOne(s, ep).flow.Continue?
    requires s.ports[ep].endpoint.hostReady && s.ports[ep].pending
    ensures
      var x := s.ports[ep].endpoint.intrIn;
      var t := CompleteOne(s, ep).state;
      && t.link.replies == s.link.replies + [ParkedReply(s.ports[ep])] && ParkedReply(s.ports[ep]).req == x
      && UnlinkStatus(t.ports, x.seqNum) == NEG_ECONNRESET
      && !t.ports[ep].endpoint.hostReady
  {
    hide PortOk, PortsOk, LinkInv, EncodeReply, EncodeReplies, Call, QuietPort;
    var p := s.ports[ep];
    var s1 := Send(s, ParkedReply(p)).state;
    var t0 := SetPort(s1, ep, Retired(Unparked(p), Shipped));
    PortsOkAt(s.ports, ep);
    CompletedLink(s.ports, s.link, s1.link, ep);
    UnparkedOk(ep, p);
    CompletedOk(ep, Unparked(p), Shipped);
    SetPortOk(s.ports, ep, Completed(Unparked(p), Shipped));
    assert Noted(t0, InDone(ep)).ports == s.ports[ep := Completed(Unparked(p), Shipped)];
    CallKeeps(t0, InDone(ep));
    CallLink(t0, InDone(ep));
    var t := Call(t0, InDone(ep)).state;
    QuietSlot(Noted(t0, InDone(ep)).ports, t.ports, ep);
  }

  lemma {:induction false} QuietSlot(ps: Ports, qs: Ports, ep: Ep)
    requires QuietPorts(ps, qs)
    ensures qs[ep].endpoint.intrIn == ps[ep].endpoint.intrIn
    ensures qs[ep].endpoint.hostReady ==> ps[ep].endpoint.hostReady
  {
    hide ShippedOf;
    assert QuietPort(ps[ep], qs[ep]);
  }
}
