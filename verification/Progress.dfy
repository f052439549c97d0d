/** The history of a connection only grows, and only a submit command adds a submit to it. */
module Progress {
  import opened Bytes
  import opened Wire
  import opened Model
  import opened Adapter

  /** A later moment of the same connection. */
  predicate Later(l: Link, m: Link) {
    && l.consumed <= m.consumed && l.heads <= m.heads
    && l.replies <= m.replies && l.cancelled <= m.cancelled && l.sent <= m.sent
    && l.received + l.input == m.received + m.input && |l.received| <= |m.received|
  }

  /** A later moment before the next command is dispatched. */
  predicate Within(l: Link, m: Link) {
    Later(l, m) && m.consumed == l.consumed && m.heads == l.heads && m.polls == l.polls
  }

  lemma {:induction false} LaterTrans(l: Link, m: Link, n: Link)
    requires Later(l, m) && Later(m, n)
    ensures Later(l, n)
    ensures Within(l, m) && Within(m, n) ==> Within(l, n)
  {}

  lemma {:induction false} SameWithin(l: Link, m: Link)
    requires SameLink(l, m)
    ensures Within(l, m)
  {}

  lemma {:induction false} ReadWithin(s: State, n: nat)
    ensures Within(s.link, Read(s, n).state.link)
  {
    var l := s.link;
    if n <= |l.input| {
      assert l.received + l.input == l.received + l.input[..n] + l.input[n..];
    } else {
      assert l.received + l.input == l.received + l.input + [];
    }
  }

  lemma {:induction false} SendWithin(s: State, r: Reply)
    ensures Within(s.link, Send(s, r).state.link)
  {
    hide EncodeReply;
  }

  lemma {:induction false} AnswerWithin(s: State, r: Submit, status: uint32, actual: uint32, payload: seq<byte>)
    ensures Within(s.link, Answer(s, r, status, actual, payload).state.link)
  {
    hide Send;
    SendWithin(s, RetSubmit(r, status, actual, payload));
  }

  lemma {:induction false} CallWithin(s: State, u: Upcall)
    requires u.InDone? ==> !s.ports[u.ep].pending
    ensures Within(s.link, Call(s, u).state.link)
  {
    hide Call;
    CallLink(s, u);
    SameWithin(s.link, Call(s, u).state.link);
  }

  lemma {:induction false} DeviceLoopWithin(s: State)
    ensures Within(s.link, DeviceLoop(s).state.link)
  {
    hide DeviceLoop;
    DeviceLoopLink(s);
    SameWithin(s.link, DeviceLoop(s).state.link);
  }

  lemma {:induction false} CompleteOneWithin(s: State, ep: Ep)
    ensures Within(s.link, CompleteOne(s, ep).state.link)
  {
    hide Call, Send;
    var p := s.ports[ep];
    if p.endpoint.hostReady && p.pending && |p.packet| <= p.endpoint.intrIn.length {
      var reply := RetSubmit(p.endpoint.intrIn, STATUS_OK, |p.packet|, p.packet);
      SendWithin(s, reply);
      var s1 := Send(s, reply).state;
      var t := SetPort(s1, ep, Retired(Unparked(p), Shipped));
      CallWithin(t, InDone(ep));
      LaterTrans(s.link, s1.link, Call(t, InDone(ep)).state.link);
    }
  }

  lemma {:induction false} CompleteFromWithin(s: State, ep: nat)
    requires ep <= 4
    ensures Within(s.link, CompleteFrom(s, ep).state.link)
    decreases 4 - ep
  {
    hide CompleteOne;
    if ep < 4 {
      CompleteOneWithin(s, ep);
      var r := CompleteOne(s, ep);
      if r.flow.Continue? {
        CompleteFromWithin(r.state, ep + 1);
        LaterTrans(s.link, r.state.link, CompleteFrom(r.state, ep + 1).state.link);
      }
    }
  }

  lemma {:induction false} CompleteWithin(s: State)
    ensures Within(s.link, CompleteInterrupts(s).state.link)
  {
    hide CompleteFrom;
    CompleteFromWithin(s, 1);
  }

  lemma {:induction false} FinishOutWithin(s: State, r: Submit, halted: bool)
    requires r.ep < 4
    ensures Within(s.link, FinishOut(s, r, halted).state.link)
  {
    hide Call, Answer;
    var t0 := SetRetired(s, 0, Acknowledged);
    CallWithin(t0, InDone(0));
    var s1 := if r.ep == 0 && s.ports[0].pending then Call(t0, InDone(0)) else Run(s, Continue);
    AnswerWithin(s1.state, r, NEG_EPIPE, 0, []);
    AnswerWithin(s1.state, r, STATUS_OK, r.length, []);
    LaterTrans(s.link, s1.state.link, FinishOut(s, r, halted).state.link);
  }

  lemma {:induction false} OutTurnWithin(s: State, r: Submit, halted: bool, count: nat)
    requires r.ep < 4
    ensures Within(s.link, OutTurn(s, r, halted, count).state.link)
  {
    hide Call, DeviceLoop, Read;
    ReadWithin(s, count);
    var s1 := Read(s, count);
    if s1.flow.Continue? {
      ReadHas(s, count);
      var s2 := if halted then s1 else Call(s1.state, OutData(r.ep, s.link.input[..count]));
      CallWithin(s1.state, OutData(r.ep, s.link.input[..count]));
      LaterTrans(s.link, s1.state.link, s2.state.link);
      DeviceLoopWithin(s2.state);
      LaterTrans(s.link, s2.state.link, DeviceLoop(s2.state).state.link);
    }
  }

  lemma {:induction false} ReadHas(s: State, count: nat)
    requires Read(s, count).flow.Continue?
    ensures count <= |s.link.input|
  {}

  lemma {:induction false} OutLoopWithin(s: State, r: Submit, halted: bool, data: seq<byte>)
    requires r.ep < 4
    ensures Within(s.link, OutLoop(s, r, halted, data).state.link)
    decreases |s.script|
  {
    hide OutTurn, FinishOut;
    if |data| >= r.length {
      FinishOutWithin(s, r, halted);
    } else {
      var count := OutCount(s, r, |data|);
      OutTurnWithin(s, r, halted, count);
      var s1 := OutTurn(s, r, halted, count);
      if s1.flow.Continue? {
        OutLoopWithin(s1.state, r, halted, data + s.link.input[..count]);
        LaterTrans(s.link, s1.state.link, OutLoop(s, r, halted, data).state.link);
      }
    }
  }

  lemma {:induction false} FinishInWithin(s: State, r: Submit, status: uint32)
    requires |s.link.gathered| <= TX_BUFFER_BYTES
    ensures Within(s.link, FinishIn(s, r, status).state.link)
  {
    hide Call, Answer;
    CallWithin(s, OutData(0, []));
    var s1 := if r.ep == 0 then Call(s, OutData(0, [])) else Run(s, Continue);
    AnswerWithin(s1.state, r, status, |s.link.gathered|, s.link.gathered);
    LaterTrans(s.link, s1.state.link, FinishIn(s, r, status).state.link);
  }

  lemma {:induction false} GatherTurnWithin(s: State, r: Submit, capacity: nat, started: uint32)
    requires r.ep < 4 && |s.link.gathered| <= capacity
    ensures Within(s.link, GatherTurn(s, r, capacity, started).run.state.link)
  {
    hide Call, DeviceLoop;
    DeviceLoopWithin(s);
    var d := DeviceLoop(s);
    if d.flow.Continue? {
      var t := Taken(d.state, r.ep);
      CallWithin(t, InDone(r.ep));
      LaterTrans(d.state.link, t.link, Call(t, InDone(r.ep)).state.link);
      LaterTrans(s.link, d.state.link, Call(t, InDone(r.ep)).state.link);
    }
  }

  lemma {:induction false} GatherWithin(s: State, r: Submit, capacity: nat, started: uint32)
    requires r.ep < 4 && |s.link.gathered| <= capacity <= TX_BUFFER_BYTES
    ensures Within(s.link, Gather(s, r, capacity, started).state.link)
    decreases |s.script|
  {
    hide FinishIn, GatherTurn;
    if |s.link.gathered| >= capacity {
      FinishInWithin(s, r, STATUS_OK);
    } else {
      GatherTurnBounded(s, r, capacity, started);
      GatherTurnWithin(s, r, capacity, started);
      var t := GatherTurn(s, r, capacity, started);
      if t.run.flow.Continue? {
        if t.status.Some? {
          FinishInWithin(t.run.state, r, t.status.value);
        } else {
          GatherWithin(t.run.state, r, capacity, started);
        }
        LaterTrans(s.link, t.run.state.link, Gather(s, r, capacity, started).state.link);
      }
    }
  }

  lemma {:induction false} TransferWithin(s: State, r: Submit)
    requires Acceptable(s, r) && s.link.gathered == []
    ensures Within(s.link, Transfer(s, r).state.link)
  {
    hide Call, Answer, OutLoop, Gather;
    AnswerWithin(s, r, NEG_EBUSY, 0, []);
    CallLink(SetRetired(s, 0, Discarded(NewSetup)), SetupStage(r.setup));
    var s1 := if r.ep == 0 then Call(SetRetired(s, 0, Discarded(NewSetup)), SetupStage(r.setup)) else Run(s, Continue);
    SameWithin(s.link, s1.state.link);
    if s1.flow.Continue? {
      OutLoopWithin(s1.state, r, r.ep != 0 && s1.state.ports[r.ep].haltedOut, []);
      GatherWithin(Ticked(s1.state), r, Capacity(r), Now(s1.state));
      LaterTrans(s.link, s1.state.link, OutLoop(s1.state, r, r.ep != 0 && s1.state.ports[r.ep].haltedOut, []).state.link);
      LaterTrans(s.link, s1.state.link, Gather(Ticked(s1.state), r, Capacity(r), Now(s1.state)).state.link);
    }
  }

  /** A submit command adds the submit it decodes to, and no other. */
  lemma {:induction false} SubmitLater(s: State)
    ensures
      var m := ServeSubmit(s).state.link;
      && Later(s.link, m) && m.heads == s.link.heads && m.polls == s.link.polls
      && (m.consumed == s.link.consumed
          || (BODY_BYTES <= |s.link.input| && m.consumed == s.link.consumed + [DecodeSubmit(s.link.input[..BODY_BYTES])]))
  {
    hide Transfer, DecodeSubmit, Read;
    ReadWithin(s, BODY_BYTES);
    var s1 := Read(s, BODY_BYTES);
    if s.attached && s1.flow.Continue? {
      ReadHas(s, BODY_BYTES);
      var r := DecodeSubmit(s.link.input[..BODY_BYTES]);
      var s2 := Begun(s1.state, r);
      assert Later(s1.state.link, s2.link);
      LaterTrans(s.link, s1.state.link, s2.link);
      if Acceptable(s2, r) {
        TransferWithin(s2, r);
        LaterTrans(s.link, s2.link, Transfer(s2, r).state.link);
      }
    }
  }

  lemma {:induction false} UnlinkWithin(s: State)
    ensures Within(s.link, ServeUnlink(s).state.link)
  {
    hide Read, Send, DecodeUnlink, UnlinkStatus;
    ReadWithin(s, BODY_BYTES);
    var s1 := Read(s, BODY_BYTES);
    if s1.flow.Continue? {
      ReadHas(s, BODY_BYTES);
      var u := DecodeUnlink(s.link.input[..BODY_BYTES]);
      var reply := RetUnlink(u.seqNum, UnlinkStatus(s1.state.ports, u.target));
      SendWithin(s1.state, reply);
      var s2 := Send(s1.state, reply);
      LaterTrans(s.link, s1.state.link, s2.state.link);
      LaterTrans(s.link, s2.state.link, UnlinkedState(s2.state, u.target).link);
    }
  }

  lemma {:induction false} DevListWithin(s: State)
    ensures Within(s.link, ServeDevList(s).state.link)
  {
    hide Read, Send;
    ReadWithin(s, 4);
    var s1 := Read(s, 4);
    SendWithin(s1.state, RetDevList(s1.state.tables.devlist));
    LaterTrans(s.link, s1.state.link, ServeDevList(s).state.link);
  }

  lemma {:induction false} AttachWithin(s: State)
    ensures Within(s.link, Attach(s).state.link)
  {
    hide Call;
    CallWithin(s, BootReset);
    var s1 := Call(s, BootReset);
    if s1.flow.Continue? {
      CallWithin(s1.state, SetupStage(ADDRESS_SETUP));
      var s2 := Call(s1.state, SetupStage(ADDRESS_SETUP));
      LaterTrans(s.link, s1.state.link, s2.state.link);
      CallWithin(SetRetired(s2.state, 0, Acknowledged), InDone(0));
      LaterTrans(s.link, s2.state.link, Call(SetRetired(s2.state, 0, Acknowledged), InDone(0)).state.link);
    }
  }

  lemma {:induction false} ImportWithin(s: State)
    ensures Within(s.link, ServeImport(s).state.link)
  {
    hide Read, Send, Attach;
    ReadWithin(s, 4);
    var s1 := Read(s, 4);
    if s1.flow.Continue? {
      ReadWithin(s1.state, 32);
      var s2 := Read(s1.state, 32);
      LaterTrans(s.link, s1.state.link, s2.state.link);
      if s2.flow.Continue? {
        ReadHas(s1.state, 32);
        var reply := RetImport(Zeros(4) + s2.state.tables.path + s1.state.link.input[..32] + s2.state.tables.device);
        SendWithin(s2.state, reply);
        var s3 := Send(s2.state, reply);
        LaterTrans(s.link, s2.state.link, s3.state.link);
        AttachWithin(s3.state);
        LaterTrans(s.link, s3.state.link, Attach(s3.state).state.link);
      }
    }
  }

  lemma {:induction false} DispatchLater(s: State)
    ensures Later(s.link, Dispatch(s).state.link)
    ensures Dispatch(s).state.link.heads == s.link.heads + [|s.link.received|] && Dispatch(s).state.link.polls == s.link.polls
  {
    hide Read, ServeDevList, ServeImport, ServeSubmit, ServeUnlink;
    var s0 := s.(link := s.link.(heads := s.link.heads + [|s.link.received|]));
    assert Later(s.link, s0.link);
    ReadWithin(s0, 4);
    var s1 := Read(s0, 4);
    LaterTrans(s.link, s0.link, s1.state.link);
    if s1.flow.Continue? {
      ReadHas(s0, 4);
      DevListWithin(s1.state);
      ImportWithin(s1.state);
      SubmitLater(s1.state);
      UnlinkWithin(s1.state);
      LaterTrans(s.link, s1.state.link, Dispatch(s).state.link);
    }
  }

  /** Nothing a connection has read, answered or cancelled is ever taken back. */
  lemma {:induction false} ServeLater(s: State)
    ensures Later(s.link, Serve(s).state.link)
    decreases |s.script|
  {
    hide DeviceLoop, CompleteInterrupts, Dispatch;
    DeviceLoopWithin(s);
    var s1 := DeviceLoop(s);
    if s1.flow.Continue? {
      CompleteWithin(s1.state);
      var s2 := CompleteInterrupts(s1.state);
      LaterTrans(s.link, s1.state.link, s2.state.link);
      if s2.flow.Continue? && s2.state.link.polls != [] {
        var s3 := Polled(s2.state);
        assert Later(s2.state.link, s3.link);
        LaterTrans(s.link, s2.state.link, s3.link);
        if s2.state.link.polls[0].Nothing? {
          ServeLater(s3);
          LaterTrans(s.link, s3.link, Serve(s3).state.link);
        } else if s2.state.link.polls[0].Ready? {
          DispatchLater(s3);
          var s4 := Dispatch(s3);
          LaterTrans(s.link, s3.link, s4.state.link);
          if s4.flow.Continue? {
            ServeLater(s4.state);
            LaterTrans(s.link, s4.state.link, Serve(s4.state).state.link);
          }
        }
      }
    }
  }
}
