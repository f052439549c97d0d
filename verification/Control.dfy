/** Control transfers on endpoint 0: the verdict of the device, the status stage, and fresh data. */
module Control {
  import opened Bytes
  import opened Wire
  import opened Model
  import opened Adapter
  import opened Ledgers
  import opened Callbacks
  import opened Invariants
  import opened Traces
  import opened Transfers

  // ------------------------------------------------------------- control IN

  /** A control IN is answered with bytes the device wrote during or after its own SETUP, never with
      what an earlier transfer left staged, and the device gets exactly one status stage. */
  lemma {:induction false} ControlInIsFresh(s: State, r: Submit) returns (reply: Reply)
    requires Serving(s, r) && Acceptable(s, r) && s.link.gathered == []
    requires r.ep == 0 && r.direction == 1 && Transfer(s, r).flow.Continue?
    ensures
      var t := Transfer(s, r).state;
      var n := |s.ports[0].ledger.wrote|;
      var l := t.ports[0].ledger;
      && AnsweredBy(s.link, t.link, reply) && reply.req == r
      && n <= |l.wrote| && n <= |l.fates|
      && reply.payload == Flatten(ShippedPackets(l.wrote[n..], l.fates[n..]))
      && l.outs == s.ports[0].ledger.outs + [[]]
  {
    hide Inv, Flushed, Call, Gather, OpenUntil, Flatten, ShippedPackets;
    var s0 := SetRetired(s, 0, Discarded(NewSetup));
    var s1 := Call(s0, SetupStage(r.setup)).state;
    SetupKeeps(s, r.setup);
    StillServing(s, s1, r);
    SetupMoves(s, r.setup);
    var s2 := Ticked(s1);
    ReadingKeeps(s1);
    StillServing(s1, s2, r);
    var status, took := GatherRefinesAssemble(s2, r, Capacity(r), Now(s1));
    var t := Transfer(s, r).state;
    reply := RetSubmit(r, status, |Flatten(took)|, Flatten(took));
    assert [] + Flatten(took) == Flatten(took);
    var n := |s.ports[0].ledger.wrote|;
    var l, l0, l1 := t.ports[0].ledger, s0.ports[0].ledger, s1.ports[0].ledger;
    InvAt(s, 0);
    assert |l0.fates| == n && l0.wrote == s.ports[0].ledger.wrote;
    assert l0.wrote <= l1.wrote <= l.wrote && l0.fates <= l1.fates <= l.fates;
    assert |l.fates| <= |l.wrote| by {
      TransferKeeps(s, r);
      InvAt(t, 0);
    }
    assert l.wrote == l0.wrote + l.wrote[n..] && l.fates == l0.fates + l.fates[n..];
    ShippedSuffix(l0.wrote, l.wrote[n..], l0.fates, l.fates[n..]);
    assert ShippedOf(l) == ShippedOf(l0) + took;
    assert took == ShippedOf(l)[|ShippedOf(l0)|..];
  }

  // ------------------------------------------------------------ control OUT

  /** The state at the end of the OUT data stage. */
  function OutEnd(s: State, r: Submit, halted: bool, data: seq<byte>): State
    requires r.ep < 4
    decreases |s.script|
  {
    if |data| >= r.length then s
    else
      var count := OutCount(s, r, |data|);
      var t := OutTurn(s, r, halted, count);
      if t.flow.Continue? then OutEnd(t.state, r, halted, data + s.link.input[..count]) else t.state
  }

  /** The same for a control request from its SETUP on. */
  function DataEnd(s: State, r: Submit): State
    requires r.ep == 0
  {
    OutEnd(Call(SetRetired(s, 0, Discarded(NewSetup)), SetupStage(r.setup)).state, r, false, [])
  }

  /** A device refuses a control request by halting endpoint 0 (USB 2.0, section 8.5.3.4). */
  function Verdict(p: Port): uint32 {
    if p.haltedIn || p.haltedOut then NEG_EPIPE else STATUS_OK
  }

  /** The status stage of a control OUT. */
  lemma {:induction false} OutStatusStage(s: State, r: Submit)
    requires Serving(s, r) && r.direction == 0 && r.ep == 0 && s.link.gathered == []
    requires FinishOut(s, r, false).flow.Continue?
    ensures
      var t := FinishOut(s, r, false).state;
      && t.ports[0].ledger.acks == s.ports[0].ledger.acks + (if s.ports[0].pending then 1 else 0)
      && AnsweredBy(s.link, t.link, RetSubmit(r, STATUS_OK, r.length, []))
  {
    hide Inv, Flushed, Call, Answer, QuietPorts;
    if s.ports[0].pending {
      AcknowledgeKeeps(s, 0);
      AcknowledgeQuiet(s);
      var t0 := SetRetired(s, 0, Acknowledged);
      QuietPortAt(Noted(t0, InDone(0)).ports, Call(t0, InDone(0)).state.ports, 0);
      AnswerEffect(Call(t0, InDone(0)).state, r, STATUS_OK, r.length, []);
    } else {
      AnswerEffect(s, r, STATUS_OK, r.length, []);
    }
  }

  lemma {:induction false} OutTurnAcks(s: State, r: Submit, count: nat)
    requires Serving(s, r) && OutTurn(s, r, false, count).flow.Continue?
    ensures OutTurn(s, r, false, count).state.ports[0].ledger.acks == s.ports[0].ledger.acks
  {
    hide Inv, Call, DeviceLoop, QuietPorts, SameWaiting;
    ReadKeeps(s, count);
    var s1 := Read(s, count).state;
    var u := OutData(r.ep, s.link.input[..count]);
    OutCallQuiet(s1, r.ep, u.bytes);
    var s2 := Call(s1, u).state;
    DeviceLoopKeeps(s2);
    QuietAcks(Noted(s1, u).ports, s2.ports);
    QuietAcks(s2.ports, DeviceLoop(s2).state.ports);
  }

  lemma {:induction false} QuietAcks(ps: Ports, qs: Ports)
    requires QuietPorts(ps, qs)
    ensures qs[0].ledger.acks == ps[0].ledger.acks
  {
    hide ShippedOf;
    assert QuietPort(ps[0], qs[0]);
  }

  lemma {:induction false} OutLoopAcks(s: State, r: Submit, data: seq<byte>)
    requires Serving(s, r) && r.direction == 0 && r.ep == 0 && s.link.gathered == []
    requires OutLoop(s, r, false, data).flow.Continue?
    ensures OutLoop(s, r, false, data).state.ports[0].ledger.acks ==
            s.ports[0].ledger.acks + if OutEnd(s, r, false, data).ports[0].pending then 1 else 0
    decreases |s.script|
  {
    hide Inv, Flushed, OutTurn, FinishOut;
    if |data| >= r.length {
      OutStatusStage(s, r);
    } else {
      var count := OutCount(s, r, |data|);
      OutTurnKeeps(s, r, false, count);
      OutTurnAcks(s, r, count);
      OutLoopAcks(OutTurn(s, r, false, count).state, r, data + s.link.input[..count]);
    }
  }

  lemma {:induction false} SetupAcks(s: State, setup: seq<byte>)
    requires Inv(s)
    ensures Call(SetRetired(s, 0, Discarded(NewSetup)), SetupStage(setup)).state.ports[0].ledger.acks == s.ports[0].ledger.acks
  {
    hide Inv, PortOk, Call, ShippedOf, QuietPorts, SameWaiting;
    InvAt(s, 0);
    RetiredOk(0, s.ports[0], Discarded(NewSetup));
    QuietSet(s, 0, Retired(s.ports[0], Discarded(NewSetup)));
    var t := SetRetired(s, 0, Discarded(NewSetup));
    PlainCallKeeps(t, SetupStage(setup));
    QuietAcks(t.ports, Call(t, SetupStage(setup)).state.ports);
  }

  /** A control OUT is answered with success whatever the device made of it. The answer agrees with the
      device exactly when the callbacks the device made during the transfer leave neither halt flag of
      endpoint 0 set. The device is told of its status packet once if one is staged when the data stage
      ends, and not at all otherwise. */
  lemma {:induction false} ControlOutVerdict(s: State, r: Submit)
    requires Serving(s, r) && Acceptable(s, r) && s.link.gathered == []
    requires r.ep == 0 && r.direction == 0 && Transfer(s, r).flow.Continue?
    ensures
      var t := Transfer(s, r).state;
      var p, used := s.ports[0], Used(s, t);
      var reply := RetSubmit(r, STATUS_OK, r.length, []);
      && AnsweredBy(AfterPayload(s.link, r), t.link, reply)
      && (reply.status == Verdict(t.ports[0]) <==> !Halt(p.haltedIn, used, 0, true) && !Halt(p.haltedOut, used, 0, false))
      && t.ports[0].ledger.acks == p.ledger.acks + if DataEnd(s, r).ports[0].pending then 1 else 0
  {
    hide Inv, Flushed, Call, OutLoop, OutEnd, Moved, OpenUntil, Flatten, Consumes, Used, Halt, NoDrops;
    SetupKeeps(s, r.setup);
    SetupAcks(s, r.setup);
    var s1 := Call(SetRetired(s, 0, Discarded(NewSetup)), SetupStage(r.setup)).state;
    StillServing(s, s1, r);
    var packets := OutLoopSplits(s1, r, false, []);
    OutLoopAcks(s1, r, []);
    TransferFollows(s, r);
    var t := Transfer(s, r).state;
    assert PortFollows(s.ports[0], t.ports[0], Used(s, t), 0, true, true);
  }

  /** The verdict can be lost: a device that halts endpoint 0 both ways in its SETUP and takes no data
      has refused the request, and the host is told that it succeeded. */
  lemma {:induction false} RefusedOutSucceeds(s: State, r: Submit)
    requires Acceptable(s, r) && s.link.gathered == [] && r.ep == 0 && r.direction == 0 && r.length == 0
    requires s.script != [] && s.script[0] == [Stall(0, true, true), Stall(0, false, true)]
    requires |EncodeReply(RetSubmit(r, STATUS_OK, 0, []))| <= s.link.budget
    ensures
      var t := Transfer(s, r).state;
      && Transfer(s, r).flow.Continue? && Verdict(t.ports[0]) == NEG_EPIPE
      && t.link.replies == s.link.replies + [RetSubmit(r, STATUS_OK, 0, [])]
  {
    hide EncodeReply;
    var t0 := Noted(SetRetired(s, 0, Discarded(NewSetup)), SetupStage(r.setup)).(script := s.script[1..]);
    var t1 := Apply(t0, Stall(0, true, true)).state;
    var t2 := Apply(t1, Stall(0, false, true)).state;
    assert s.script[0][1..] == [Stall(0, false, true)] && [Stall(0, false, true)][1..] == [];
    assert ApplyAll(t2, []) == Run(t2, Continue);
    assert ApplyAll(t1, [Stall(0, false, true)]) == Run(t2, Continue);
    assert ApplyAll(t0, s.script[0]) == Run(t2, Continue);
    assert Call(SetRetired(s, 0, Discarded(NewSetup)), SetupStage(r.setup)) == Run(t2, Continue);
    assert OutLoop(t2, r, false, []) == FinishOut(t2, r, false);
  }
}
