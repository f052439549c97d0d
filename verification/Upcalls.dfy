/** What the device is told, in order: the upcalls each operation makes, and on which side of its reply.
    The timer's own callbacks can come before any turn of the device loop and are left aside. */
module Upcalls {
  import opened Bytes
  import opened Wire
  import opened Model
  import opened Adapter
  import opened Ledgers
  import opened Callbacks
  import opened Invariants
  import opened Traces
  import opened Transfers
  import opened Control

  // ------------------------------------------------------------- traces

  /** The upcalls, without the timer's. */
  function Plain(calls: seq<Made>): seq<Upcall> {
    if calls == [] then [] else PlainCall(calls[0]) + Plain(calls[1..])
  }

  function PlainCall(c: Made): seq<Upcall> {
    if c.upcall.TimerFired? then [] else [c.upcall]
  }

  lemma {:induction false} PlainAppend(a: seq<Made>, b: seq<Made>)
    ensures Plain(a + b) == Plain(a) + Plain(b)
    decreases |a|
  {
    hide PlainCall;
    if a == [] {
      assert a + b == b;
    } else {
      assert (a + b)[0] == a[0] && (a + b)[1..] == a[1..] + b;
      PlainAppend(a[1..], b);
    }
  }

  /** All of them before the next reply. */
  predicate AllAt(calls: seq<Made>, n: nat) {
    forall i :: 0 <= i < |calls| ==> calls[i].replied == n
  }

  /** Between two states these upcalls were made, and no reply was written. */
  predicate Makes(s: State, t: State, us: seq<Upcall>) {
    && s.calls <= t.calls && t.link.replies == s.link.replies
    && Plain(t.calls[|s.calls|..]) == us && AllAt(t.calls[|s.calls|..], |s.link.replies|)
  }

  lemma {:induction false} MakesTrans(s: State, t: State, u: State, a: seq<Upcall>, b: seq<Upcall>)
    requires Makes(s, t, a) && Makes(t, u, b)
    ensures Makes(s, u, a + b)
  {
    hide Plain;
    var x, y := t.calls[|s.calls|..], u.calls[|t.calls|..];
    assert u.calls[|s.calls|..] == x + y;
    PlainAppend(x, y);
  }

  lemma {:induction false} MakesNothing(s: State, t: State)
    requires t.calls == s.calls && t.link.replies == s.link.replies
    ensures Makes(s, t, [])
  {}

  lemma {:induction false} CallMakes(s: State, u: Upcall)
    requires u.InDone? ==> !s.ports[u.ep].pending
    ensures Makes(s, Call(s, u).state, if u.TimerFired? then [] else [u])
  {
    hide Call, Explained, Consumes, Used, Timeouts, Requests;
    CallStep(s, u);
    CallLink(s, u);
    var t := Call(s, u).state;
    assert t.calls[|s.calls|..] == [Made(u, |s.link.replies|)];
    assert [Made(u, |s.link.replies|)][1..] == [];
    assert t.link.replies == s.link.replies;
    assert Plain([Made(u, |s.link.replies|)]) == (if u.TimerFired? then [] else [u]) + Plain([]);
  }

  /** A step that starts with changes the device does not see. */
  lemma {:induction false} CallAfterMakes(s: State, t: State, u: Upcall)
    requires u.InDone? ==> !t.ports[u.ep].pending
    requires t.calls == s.calls && t.link.replies == s.link.replies && !u.TimerFired?
    ensures Makes(s, Call(t, u).state, [u])
  {
    hide Call, Makes;
    MakesNothing(s, t);
    CallMakes(t, u);
    MakesTrans(s, t, Call(t, u).state, [], [u]);
    assert [] + [u] == [u];
  }

  lemma {:induction false} DeviceLoopMakes(s: State)
    requires DeviceLoop(s).flow.Continue?
    ensures Makes(s, DeviceLoop(s).state, [Loop])
  {
    hide Call, Makes;
    MakesNothing(s, s);
    MakesNothing(s, Ticked(s));
    if s.timer.Some? {
      var d := Disarmed(s);
      MakesNothing(s, d);
      CallMakes(d, TimerFired(s.timer.value.callback));
      ghost var none: seq<Upcall> := [];
      MakesTrans(s, d, Call(d, TimerFired(s.timer.value.callback)).state, none, none);
      assert none + none == none;
    }
    var s1 := TimerStep(s).state;
    CallMakes(s1, Loop);
    MakesTrans(s, s1, DeviceLoop(s).state, [], [Loop]);
    assert [] + [Loop] == [Loop];
  }

  // ---------------------------------------------------------------- OUT data

  /** Each packet goes to the device, unless the endpoint is halted, and then the device gets to run. */
  function OutCalls(read: seq<seq<byte>>, ep: Ep, halted: bool): seq<Upcall> {
    if read == [] then []
    else (if halted then [Loop] else [OutData(ep, read[0]), Loop]) + OutCalls(read[1..], ep, halted)
  }

  lemma {:induction false} OutTurnMakes(s: State, r: Submit, halted: bool, count: nat)
    requires r.ep < 4 && OutTurn(s, r, halted, count).flow.Continue?
    ensures Makes(s, OutTurn(s, r, halted, count).state, if halted then [Loop] else [OutData(r.ep, s.link.input[..count]), Loop])
  {
    hide Call, DeviceLoop, Makes;
    var s1 := Read(s, count).state;
    MakesNothing(s, s1);
    var u := OutData(r.ep, s.link.input[..count]);
    CallAfterMakes(s, s1, u);
    var s2 := if halted then s1 else Call(s1, u).state;
    DeviceLoopMakes(s2);
    MakesTrans(s, s2, DeviceLoop(s2).state, if halted then [] else [u], [Loop]);
    assert [] + [Loop] == [Loop] && [u] + [Loop] == [u, Loop];
  }

  /** The status stage of a control OUT comes before the reply. */
  function OutStatusCalls(s: State, r: Submit): seq<Upcall> {
    if r.ep == 0 && s.ports[0].pending then [InDone(0)] else []
  }

  /** After the last upcall one reply is written, and nothing else happens. */
  predicate RepliesAfter(s: State, t: State, us: seq<Upcall>) {
    && s.calls <= t.calls && |t.link.replies| == |s.link.replies| + 1 && s.link.replies <= t.link.replies
    && Plain(t.calls[|s.calls|..]) == us && AllAt(t.calls[|s.calls|..], |s.link.replies|)
  }

  lemma {:induction false} RepliesTrans(s: State, t: State, u: State, a: seq<Upcall>, b: seq<Upcall>)
    requires Makes(s, t, a) && RepliesAfter(t, u, b)
    ensures RepliesAfter(s, u, a + b)
  {
    hide Plain;
    var x, y := t.calls[|s.calls|..], u.calls[|t.calls|..];
    assert u.calls[|s.calls|..] == x + y;
    PlainAppend(x, y);
  }

  lemma {:induction false} AnswerReplies(s: State, t: State, us: seq<Upcall>, r: Submit, status: uint32, actual: uint32, payload: seq<byte>)
    requires Makes(s, t, us) && Answer(t, r, status, actual, payload).flow.Continue?
    ensures RepliesAfter(s, Answer(t, r, status, actual, payload).state, us)
  {
    hide EncodeReply, Plain;
  }

  lemma {:induction false} FinishOutReplies(s: State, r: Submit, halted: bool)
    requires r.ep < 4 && FinishOut(s, r, halted).flow.Continue?
    ensures RepliesAfter(s, FinishOut(s, r, halted).state, OutStatusCalls(s, r))
  {
    hide Call, Answer, Makes, RepliesAfter;
    MakesNothing(s, s);
    CallAfterMakes(s, SetRetired(s, 0, Acknowledged), InDone(0));
    var s1 := if r.ep == 0 && s.ports[0].pending
              then Call(SetRetired(s, 0, Acknowledged), InDone(0)) else Run(s, Continue);
    if halted {
      AnswerReplies(s, s1.state, OutStatusCalls(s, r), r, NEG_EPIPE, 0, []);
    } else {
      AnswerReplies(s, s1.state, OutStatusCalls(s, r), r, STATUS_OK, r.length, []);
    }
  }

  /** The OUT loop: the payload is read in these pieces, and each has its upcalls. */
  lemma {:induction false} OutLoopCalls(s: State, r: Submit, halted: bool, data: seq<byte>) returns (read: seq<seq<byte>>)
    requires Serving(s, r) && r.direction == 0 && s.link.gathered == [] && (halted ==> r.ep != 0)
    requires |data| <= r.length && OutLoop(s, r, halted, data).flow.Continue?
    ensures r.length - |data| <= |s.link.input|
    ensures
      var n := r.length - |data|;
      var t := OutLoop(s, r, halted, data).state;
      && Flatten(read) == s.link.input[..n]
      && (OpenUntil(s, t, r.ep) ==> read == Split(s.link.input[..n], PacketBytes(r.ep)))
      && RepliesAfter(s, t, OutCalls(read, r.ep, halted) + OutStatusCalls(OutEnd(s, r, halted, data), r))
    decreases |s.script|
  {
    hide Inv, Flushed, OutTurn, FinishOut, Moved, Flatten, KeepsOpen, Split, Makes, RepliesAfter;
    var n := r.length - |data|;
    var z := OutLoop(s, r, halted, data).state;
    if n == 0 {
      read := [];
      FlattenNothing();
      SplitNothing(PacketBytes(r.ep));
      FinishOutReplies(s, r, halted);
      assert [] + OutStatusCalls(s, r) == OutStatusCalls(s, r);
      assert s.link.input[..0] == [];
    } else {
      var count := OutCount(s, r, |data|);
      OutTurnKeeps(s, r, halted, count);
      OutTurnEffect(s, z, r, halted, count);
      OutTurnMakes(s, r, halted, count);
      var t := OutTurn(s, r, halted, count).state;
      var bytes := s.link.input[..count];
      var rest := OutLoopCalls(t, r, halted, data + bytes);
      read := [bytes] + rest;
      FlattenAppend([bytes], rest);
      FlattenOne(bytes);
      TwoReads(s.link.input, s.link.received, count, n);
      if OpenUntil(s, z, r.ep) {
        SplitFirst(s.link.input[..n], count, PacketBytes(r.ep));
      }
      var first := if halted then [Loop] else [OutData(r.ep, bytes), Loop];
      var status := OutStatusCalls(OutEnd(t, r, halted, data + bytes), r);
      RepliesTrans(s, t, z, first, OutCalls(rest, r.ep, halted) + status);
      assert read[0] == bytes && read[1..] == rest;
      assert first + (OutCalls(rest, r.ep, halted) + status) == OutCalls(read, r.ep, halted) + status;
    }
  }

  // ----------------------------------------------------------------- IN data

  /** Turns of the IN loop: the device gets to run in each, and is told of `n` packets, each in the turn
      that took it. */
  predicate InCalls(us: seq<Upcall>, ep: Ep, n: nat)
    decreases |us|
  {
    if us == [] then n == 0
    else
      && us[0] == Loop
      && if |us| > 1 && us[1] == InDone(ep) then n > 0 && InCalls(us[2..], ep, n - 1) else InCalls(us[1..], ep, n)
  }

  lemma {:induction false} InCallsStep(us: seq<Upcall>, ep: Ep, n: nat)
    requires InCalls(us, ep, n)
    ensures InCalls([Loop] + us, ep, n)
    ensures InCalls([Loop, InDone(ep)] + us, ep, n + 1)
  {
    assert ([Loop] + us)[1..] == us && ([Loop, InDone(ep)] + us)[2..] == us;
    assert us != [] ==> us[0] == Loop;
  }

  lemma {:induction false} GatherTurnMakes(s: State, r: Submit, capacity: nat, started: uint32)
    requires r.ep < 4 && |s.link.gathered| <= capacity && GatherTurn(s, r, capacity, started).run.flow.Continue?
    ensures
      var took := DeviceLoop(s).state.ports[r.ep].pending && !DeviceLoop(s).state.ports[r.ep].haltedIn;
      Makes(s, GatherTurn(s, r, capacity, started).run.state, if took then [Loop, InDone(r.ep)] else [Loop])
  {
    hide Call, DeviceLoop, Makes;
    DeviceLoopMakes(s);
    var d := DeviceLoop(s).state;
    var took := d.ports[r.ep].pending && !d.ports[r.ep].haltedIn;
    MakesNothing(d, d);
    MakesNothing(d, Ticked(d));
    CallAfterMakes(d, Taken(d, r.ep), InDone(r.ep));
    MakesTrans(s, d, GatherTurn(s, r, capacity, started).run.state, [Loop], if took then [InDone(r.ep)] else []);
    assert [Loop] + [InDone(r.ep)] == [Loop, InDone(r.ep)] && [Loop] + [] == [Loop];
  }

  /** The status stage of a control IN comes before the reply. */
  function InStatusCalls(ep: Ep): seq<Upcall> {
    if ep == 0 then [OutData(0, [])] else []
  }

  lemma {:induction false} FinishInReplies(s: State, r: Submit, status: uint32)
    requires r.ep < 4 && |s.link.gathered| <= TX_BUFFER_BYTES && FinishIn(s, r, status).flow.Continue?
    ensures RepliesAfter(s, FinishIn(s, r, status).state, InStatusCalls(r.ep))
  {
    hide Call, Answer, Makes, RepliesAfter;
    MakesNothing(s, s);
    CallMakes(s, OutData(0, []));
    var s1 := if r.ep == 0 then Call(s, OutData(0, [])) else Run(s, Continue);
    AnswerReplies(s, s1.state, InStatusCalls(r.ep), r, status, |s.link.gathered|, s.link.gathered);
  }

  lemma {:induction false} GatherCalls(s: State, r: Submit, capacity: nat, started: uint32) returns (us: seq<Upcall>, n: nat)
    requires r.ep < 4 && |s.link.gathered| <= capacity <= TX_BUFFER_BYTES && Gather(s, r, capacity, started).flow.Continue?
    ensures InCalls(us, r.ep, n)
    ensures RepliesAfter(s, Gather(s, r, capacity, started).state, us + InStatusCalls(r.ep))
    decreases |s.script|
  {
    hide FinishIn, GatherTurn, DeviceLoop, Makes, RepliesAfter;
    var status := InStatusCalls(r.ep);
    if |s.link.gathered| >= capacity {
      us, n := [], 0;
      FinishInReplies(s, r, STATUS_OK);
      assert us + status == status;
    } else {
      GatherTurnBounded(s, r, capacity, started);
      GatherTurnMakes(s, r, capacity, started);
      var turn := GatherTurn(s, r, capacity, started);
      var m := turn.run.state;
      var took := DeviceLoop(s).state.ports[r.ep].pending && !DeviceLoop(s).state.ports[r.ep].haltedIn;
      var first := if took then [Loop, InDone(r.ep)] else [Loop];
      if turn.status.Some? {
        FinishInReplies(m, r, turn.status.value);
        us, n := [], 0;
        assert [] + status == status;
      } else {
        us, n := GatherCalls(m, r, capacity, started);
      }
      InCallsStep(us, r.ep, n);
      RepliesTrans(s, m, Gather(s, r, capacity, started).state, first, us + status);
      assert first + (us + status) == (first + us) + status;
      us, n := first + us, if took then n + 1 else n;
    }
  }

  // --------------------------------------------------------------- requests

  /** A control request starts with its SETUP. */
  function SetupCalls(r: Submit): seq<Upcall> {
    if r.ep == 0 then [SetupStage(r.setup)] else []
  }

  lemma {:induction false} SetupMakes(s: State, r: Submit)
    ensures Makes(s, Call(SetRetired(s, 0, Discarded(NewSetup)), SetupStage(r.setup)).state, [SetupStage(r.setup)])
  {
    hide Call, Makes;
    CallAfterMakes(s, SetRetired(s, 0, Discarded(NewSetup)), SetupStage(r.setup));
  }

  /** The state in which the data stage starts. */
  function DataStart(s: State, r: Submit): State {
    if r.ep == 0 then Call(SetRetired(s, 0, Discarded(NewSetup)), SetupStage(r.setup)).state else s
  }

  lemma {:induction false} DataStartKeeps(s: State, r: Submit)
    requires Serving(s, r)
    ensures Serving(DataStart(s, r), r) && Makes(s, DataStart(s, r), SetupCalls(r)) && SameConnection(s, DataStart(s, r))
  {
    hide Inv, Flushed, Call, Makes;
    SetupKeeps(s, r.setup);
    SetupMakes(s, r);
    MakesNothing(s, s);
    StillServing(s, DataStart(s, r), r);
  }

  lemma {:induction false} DataStartOpen(s: State, z: State, r: Submit)
    requires r.ep < 4 && OpenUntil(s, z, r.ep) && |z.script| <= |DataStart(s, r).script|
    ensures OpenUntil(DataStart(s, r), z, r.ep)
  {
    hide Call, KeepsOpen;
    if r.ep == 0 {
      assert OpenUntil(SetRetired(s, 0, Discarded(NewSetup)), z, 0);
      CallOpen(SetRetired(s, 0, Discarded(NewSetup)), SetupStage(r.setup), z, 0);
    }
  }

  /** An OUT request that is answered. Its payload is read in pieces, which are its packets if the device
      does not close the endpoint. The device is told of the SETUP (for a control request), then of each
      piece, with a turn of the device loop after it, then of the status stage if it staged one; then
      the reply is written. On an endpoint that was halted for OUT when the data stage started, the
      device gets no data, and the reply is -EPIPE with length 0; otherwise it is 0 with the length of
      the payload. */
  lemma {:induction false} OutRequest(s: State, r: Submit) returns (read: seq<seq<byte>>)
    requires Serving(s, r) && Acceptable(s, r) && s.link.gathered == []
    requires r.direction == 0 && Transfer(s, r).flow.Continue?
    ensures r.length <= |s.link.input|
    ensures
      var t := Transfer(s, r).state;
      var halted := r.ep != 0 && s.ports[r.ep].haltedOut;
      && AnsweredBy(AfterPayload(s.link, r), t.link,
                    if halted then RetSubmit(r, 0x1_0000_0000 - 32, 0, []) else RetSubmit(r, 0, r.length, []))
      && Flatten(read) == s.link.input[..r.length]
      && (OpenUntil(s, t, r.ep) ==> read == Split(s.link.input[..r.length], PacketBytes(r.ep)))
      && RepliesAfter(s, t, SetupCalls(r) + (OutCalls(read, r.ep, halted) + OutStatusCalls(OutEnd(DataStart(s, r), r, halted, []), r)))
  {
    hide Inv, Flushed, Call, OutLoop, OutEnd, Moved, OpenUntil, Flatten, Split, Makes, RepliesAfter, Acceptable;
    AcceptableMeans(s, r);
    DataStartKeeps(s, r);
    var s1 := DataStart(s, r);
    var halted := r.ep != 0 && s.ports[r.ep].haltedOut;
    var t := Transfer(s, r).state;
    assert t == OutLoop(s1, r, halted, []).state;
    var packets := OutLoopSplits(s1, r, halted, []);
    read := OutLoopCalls(s1, r, halted, []);
    RepliesTrans(s, s1, t, SetupCalls(r), OutCalls(read, r.ep, halted) + OutStatusCalls(OutEnd(s1, r, halted, []), r));
    if OpenUntil(s, t, r.ep) {
      DataStartOpen(s, t, r);
    }
  }

  /** A request that starts an IN data stage: it is neither refused because one waits, nor parked. */
  predicate Gathers(s: State, r: Submit)
    requires r.ep < 4
  {
    var p := s.ports[r.ep];
    r.direction == 1 && (r.ep != 0 && p.endpoint.kind == 3 ==> !p.endpoint.hostReady && (p.pending || p.haltedIn))
  }

  /** An IN request that is answered from an IN data stage. Its payload is the packets it took, in order.
      If the device does not close the endpoint, they are a complete run for the length the host asked
      for, or for 4096 bytes if it asked for more, when the status is 0; and an open run otherwise. The
      device is told of the SETUP (for a control request), gets to run in every turn, is told of each
      packet in the turn that took it, and then of the empty OUT packet of the status stage; then the
      reply is written. */
  lemma {:induction false} InRequest(s: State, r: Submit)
    returns (status: uint32, took: seq<seq<byte>>, us: seq<Upcall>, n: nat)
    requires Serving(s, r) && Acceptable(s, r) && s.link.gathered == []
    requires Gathers(s, r) && Transfer(s, r).flow.Continue?
    ensures status in {0, 0x1_0000_0000 - 32, 0x1_0000_0000 - 110}
    ensures
      var t := Transfer(s, r).state;
      && |Flatten(took)| <= r.length && |Flatten(took)| <= 4096
      && AnsweredBy(s.link, t.link, RetSubmit(r, status, |Flatten(took)|, Flatten(took)))
      && (OpenUntil(s, t, r.ep) ==>
            && (status == 0 ==> Complete(took, if r.length <= 4096 then r.length else 4096, PacketBytes(r.ep)))
            && (status != 0 ==> Unfinished(took, if r.length <= 4096 then r.length else 4096, PacketBytes(r.ep))))
      && InCalls(us, r.ep, n)
      && RepliesAfter(s, t, SetupCalls(r) + (us + InStatusCalls(r.ep)))
  {
    hide Inv, Flushed, Call, Gather, Moved, OpenUntil, Flatten, Makes, RepliesAfter, Complete, Unfinished, PacketBytes, Acceptable;
    AcceptableMeans(s, r);
    DataStartKeeps(s, r);
    var s1 := DataStart(s, r);
    var s2 := Ticked(s1);
    ReadingKeeps(s1);
    StillServing(s1, s2, r);
    var t := Transfer(s, r).state;
    assert t == Gather(s2, r, Capacity(r), Now(s1)).state;
    status, took := GatherRefinesAssemble(s2, r, Capacity(r), Now(s1));
    assert [] + Flatten(took) == Flatten(took);
    us, n := GatherCalls(s2, r, Capacity(r), Now(s1));
    TickMakes(s, s1, SetupCalls(r));
    RepliesTrans(s, s2, t, SetupCalls(r), us + InStatusCalls(r.ep));
    if OpenUntil(s, t, r.ep) {
      DataStartOpen(s, t, r);
      OpenTicked(s1, t, r.ep);
    }
  }

  lemma {:induction false} TickMakes(s: State, t: State, us: seq<Upcall>)
    requires Makes(s, t, us)
    ensures Makes(s, Ticked(t), us)
  {}

  /** A request that does not start a data stage: the device is told nothing. An IN request to an interrupt
      endpoint is refused when another one waits there, and waits itself when there is nothing to send. */
  lemma {:induction false} WaitingRequest(s: State, r: Submit)
    requires Serving(s, r) && Acceptable(s, r) && s.link.gathered == []
    requires r.direction == 1 && !Gathers(s, r) && Transfer(s, r).flow.Continue?
    ensures
      var p, t := s.ports[r.ep], Transfer(s, r).state;
      && t.calls == s.calls && t.script == s.script
      && (p.endpoint.hostReady ==>
            t.ports == s.ports && AnsweredBy(s.link, t.link, RetSubmit(r, 0x1_0000_0000 - 16, 0, [])))
      && (!p.endpoint.hostReady ==>
            && t.link == s.link.(current := None)
            && t.ports[r.ep].endpoint == p.endpoint.(hostReady := true, intrIn := r) && !t.ports[r.ep].pending
            && forall ep: Ep :: ep != r.ep ==> t.ports[ep] == s.ports[ep])
  {
    hide Inv, Flushed, Call, OutLoop, Gather, EncodeReply;
  }

  // ------------------------------------------------------- the other operations

  /** What rust_complete_interrupt does to one endpoint: nothing unless a request waits and a packet is
      staged; it gives up on a packet that is longer than the request; and otherwise it answers the
      request with the packet, frees the slot and only then tells the device. If the reply cannot be
      written, the request and the packet stay. */
  lemma {:induction false} DelayedAnswer(s: State, ep: Ep)
    ensures
      var p, run := s.ports[ep], CompleteOne(s, ep);
      var t := run.state;
      var reply := RetSubmit(p.endpoint.intrIn, 0, |p.packet| % 0x1_0000_0000, p.packet);
      if !(p.endpoint.hostReady && p.pending) then run == Run(s, Continue)
      else if |p.packet| > p.endpoint.intrIn.length then run == Run(s, Fatal)
      else if |EncodeReply(reply)| > s.link.budget then run.flow.Fatal? && t.ports == s.ports && t.calls == s.calls
      else
        && t.link.replies == s.link.replies + [reply]
        && t.calls == s.calls + [Made(InDone(ep), |s.link.replies| + 1)]
  {
    hide EncodeReply, Call, Explained, Consumes, Used, Timeouts, Requests;
    var p := s.ports[ep];
    if p.endpoint.hostReady && p.pending && |p.packet| <= p.endpoint.intrIn.length {
      var reply := RetSubmit(p.endpoint.intrIn, STATUS_OK, |p.packet|, p.packet);
      var s1 := Send(s, reply);
      if s1.flow.Continue? {
        SendFrame(s, reply);
        var t0 := SetPort(s1.state, ep, Retired(Unparked(p), Shipped));
        CallStep(t0, InDone(ep));
        CallLink(t0, InDone(ep));
      }
    }
  }

  /** What the connection asks of the device when it imports it: a reset, SET_ADDRESS 1, and the
      completion of its empty status packet, without which the server stops; only then is the device
      attached. */
  lemma {:induction false} AttachUpcalls(s: State)
    ensures
      var run := Attach(s);
      var t := run.state;
      && (run.flow.Continue? ==>
            && Makes(s, t, [BootReset, SetupStage([0x00, 0x05, 0x01, 0x00, 0x00, 0x00, 0x00, 0x00]), InDone(0)])
            && t.attached
            && var asked := Call(Call(s, BootReset).state, SetupStage([0x00, 0x05, 0x01, 0x00, 0x00, 0x00, 0x00, 0x00])).state;
               asked.ports[0].pending && asked.ports[0].packet == [])
      && (!run.flow.Continue? ==> t.attached == s.attached)
  {
    hide Call, Makes;
    CallMakes(s, BootReset);
    CallLink(s, BootReset);
    var s1 := Call(s, BootReset).state;
    var u := SetupStage([0x00, 0x05, 0x01, 0x00, 0x00, 0x00, 0x00, 0x00]);
    CallMakes(s1, u);
    CallLink(s1, u);
    var s2 := Call(s1, u).state;
    MakesTrans(s, s1, s2, [BootReset], [u]);
    var s3 := SetRetired(s2, 0, Acknowledged);
    CallAfterMakes(s2, s3, InDone(0));
    CallLink(s3, InDone(0));
    var s4 := Call(s3, InDone(0)).state;
    MakesTrans(s, s2, s4, [BootReset] + [u], [InDone(0)]);
    assert [BootReset] + [u] + [InDone(0)] == [BootReset, u, InDone(0)];
    if Attach(s).flow.Continue? {
      AttachedMakes(s, s4, [BootReset, u, InDone(0)]);
    }
  }

  lemma {:induction false} AttachedMakes(s: State, t: State, us: seq<Upcall>)
    requires Makes(s, t, us)
    ensures Makes(s, t.(attached := true), us)
  {}

  /** What a disconnect asks of the device: a reset. No timer of the ended connection stays armed; a
      timer can only be armed by the reset itself. What the reset left staged or waiting is forgotten, and
      the endpoints are otherwise as the reset left them. */
  lemma {:induction false} DisconnectUpcalls(s: State)
    ensures
      var run := Disconnect(s);
      var t := run.state;
      && t.calls == s.calls + [Made(BootReset, |s.link.replies|)] && t.link.sent == s.link.sent
      && !t.attached && (t.timer.Some? ==> t.timer.value.id >= |s.armings|)
      && (run.flow.Continue? ==>
            var reset := Call(s.(attached := false, timer := None), BootReset).state;
            forall ep: Ep ::
              var p, q := reset.ports[ep], t.ports[ep];
              && !q.pending && q.packet == [] && q.haltedIn == p.haltedIn && q.haltedOut == p.haltedOut
              && q.endpoint == Endpoint(p.endpoint.kind, p.endpoint.mps, false, ZERO_SUBMIT))
  {
    hide Call, Explained, Consumes, Used, Timeouts, Requests;
    var s0 := s.(attached := false, timer := None);
    CallStep(s0, BootReset);
    CallLink(s0, BootReset);
    CallArms(s0, BootReset);
  }

  /** A timer armed during an upcall is a new one. */
  lemma {:induction false} CallArms(s: State, u: Upcall)
    requires s.timer.None? && (u.InDone? ==> !s.ports[u.ep].pending)
    ensures Call(s, u).state.timer.Some? ==> Call(s, u).state.timer.value.id >= |s.armings|
  {
    hide ApplyAll;
    if s.script != [] {
      ApplyAllArms(Noted(s, u).(script := s.script[1..]), s.script[0], |s.armings|);
    }
  }

  lemma {:induction false} ApplyAllArms(s: State, cs: seq<Callback>, n: nat)
    requires n <= |s.armings| && (s.timer.Some? ==> s.timer.value.id >= n)
    ensures ApplyAll(s, cs).state.timer.Some? ==> ApplyAll(s, cs).state.timer.value.id >= n
    decreases |cs|
  {
    if cs != [] {
      var r := Apply(s, cs[0]);
      if r.flow.Continue? {
        ApplyAllArms(r.state, cs[1..], n);
      }
    }
  }
}
