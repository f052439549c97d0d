/** Whole connections, as the host sees them: what is read is served, what can be answered is answered,
    and a connection ends for a cause. */
module Service {
  import opened Bytes
  import opened Wire
  import opened Model
  import opened Adapter
  import opened Ledgers
  import opened Callbacks
  import opened Invariants
  import opened Traces
  import opened Transfers
  import opened Upcalls
  import opened Progress
  import opened Framing
  import opened Connections
  import opened Guarantees
  import opened Interrupts

  // --------------------------------------------------- runs that reach a poll

  /** The connection is being served, and the loop has come to its next poll. */
  predicate AtPoll(s: State) {
    Serve(s).flow.Exhausted? && Serve(s).state.script != []
  }

  /** The loop, one turn at a time. */
  lemma {:induction false} AtPollStep(s: State)
    requires AtPoll(s)
    ensures
      var s1 := DeviceLoop(s);
      && s1.flow.Continue?
      && var s2 := CompleteInterrupts(s1.state);
         && s2.flow.Continue?
         && (s2.state.link.polls == [] ==> Serve(s).state == s2.state)
         && (s2.state.link.polls != [] ==>
               var s3 := Polled(s2.state);
               && (s2.state.link.polls[0].Nothing? ==> AtPoll(s3) && Serve(s).state == Serve(s3).state)
               && (s2.state.link.polls[0].Ready? ==>
                     Dispatch(s3).flow.Continue? && AtPoll(Dispatch(s3).state) && Serve(s).state == Serve(Dispatch(s3).state).state)
               && !s2.state.link.polls[0].Failed?)
  {
    hide DeviceLoop, CompleteInterrupts, Dispatch, Explained;
    DeviceLoopFollows(s);
    ScriptGone(s, DeviceLoop(s));
    var s1 := DeviceLoop(s);
    if s1.flow.Continue? {
      CompleteFollows(s1.state);
      ScriptGone(s1.state, CompleteInterrupts(s1.state));
      var s2 := CompleteInterrupts(s1.state);
      if s2.flow.Continue? && s2.state.link.polls != [] && s2.state.link.polls[0].Ready? {
        var s3 := Polled(s2.state);
        DispatchFollows(s3);
        ScriptGone(s3, Dispatch(s3));
      }
    }
  }

  lemma {:induction false} ScriptGone(s: State, run: Run)
    requires Follows(s, run, true)
    ensures run.flow.Exhausted? ==> run.state.script == []
  {
    hide PortFollows, Consumes, Logged;
  }

  /** Everything that is kept at the poll. */
  lemma {:induction false} PassKeeps(s: State)
    requires Inv(s) && AtHead(s) && DeviceLoop(s).flow.Continue?
    ensures Inv(DeviceLoop(s).state) && AtHead(DeviceLoop(s).state)
    ensures
      var s2 := CompleteInterrupts(DeviceLoop(s).state);
      s2.flow.Continue? ==>
        && Inv(s2.state) && AtHead(s2.state)
        && (s2.state.link.polls != [] ==> Inv(Polled(s2.state)) && AtHead(Polled(s2.state)))
  {
    hide Inv, Flushed, DeviceLoop, CompleteInterrupts, Quiet;
    DeviceLoopKeeps(s);
    DeviceLoopLink(s);
    StillHead(s, DeviceLoop(s).state);
    CompleteKeeps(DeviceLoop(s).state);
    var s2 := CompleteInterrupts(DeviceLoop(s).state);
    if s2.flow.Continue? && s2.state.link.polls != [] {
      BookkeepingKeeps(s2.state, s2.state.link.heads, Polled(s2.state).link.polls);
    }
  }

  // -------------------------------------------------------- nothing waits

  /** In every completion the device is told of, it stages packets on that endpoint only. */
  predicate OwnStaging(calls: seq<Made>, used: seq<seq<Callback>>) {
    forall i :: 0 <= i < |calls| && i < |used| && calls[i].upcall.InDone? ==> StagesOnlyOn(used[i], calls[i].upcall.ep)
  }

  lemma {:induction false} OwnStagingSuffix(a: seq<Made>, b: seq<Made>, x: seq<seq<Callback>>, y: seq<seq<Callback>>)
    requires |a| == |x| && OwnStaging(a + b, x + y)
    ensures OwnStaging(b, y)
  {
    forall i | 0 <= i < |b| && i < |y| && b[i].upcall.InDone? ensures StagesOnlyOn(y[i], b[i].upcall.ep) {
      assert (a + b)[|a| + i] == b[i] && (x + y)[|x| + i] == y[i];
    }
  }

  lemma {:induction false} LaterStaging(s: State, m: State, z: State)
    requires Follows(s, Run(m, Continue), true) && Follows(m, Run(z, Continue), true)
    requires OwnStaging(Since(s, z), Used(s, z))
    ensures OwnStaging(Since(m, z), Used(m, z))
  {
    hide PortFollows, Explained, Timeouts, TimerCalls, OwnStaging;
    UsedTrans(s, m, z);
    assert Since(s, z) == Since(s, m) + Since(m, z);
    OwnStagingSuffix(Since(s, m), Since(m, z), Used(s, m), Used(m, z));
  }

  /** The completion of endpoint 2 in the pass, as the device knows it. */
  lemma {:induction false} PassStaging(s: State)
    requires CompleteInterrupts(s).flow.Continue? && s.attached
    requires
      var z := CompleteInterrupts(s).state;
      OwnStaging(Since(s, z), Used(s, z))
    ensures
      var s1 := CompleteOne(s, 1).state;
      !Quiescent(s1.ports[2]) && s1.script != [] ==> StagesOnlyOn(s1.script[0], 2)
  {
    hide CompleteOne, PortFollows, Explained, Timeouts, TimerCalls, StagesOnlyOn;
    var z := CompleteInterrupts(s).state;
    var s1 := CompleteOne(s, 1).state;
    CompleteOneFollows(s, 1);
    assert CompleteFrom(s, 1) == CompleteFrom(s1, 2);
    var s2 := CompleteOne(s1, 2).state;
    CompleteOneFollows(s1, 2);
    assert CompleteFrom(s1, 2) == CompleteFrom(s2, 3);
    CompleteFromFollows(s2, 3);
    if !Quiescent(s1.ports[2]) && s1.script != [] {
      DelayedCall(s1, 2);
      UsedTrans(s1, s2, z);
      UsedTrans(s, s1, z);
      var i := |Since(s, s1)|;
      assert z.calls[|s1.calls|] == s2.calls[|s1.calls|];
      assert Since(s, z)[i] == z.calls[|s1.calls|];
      assert Used(s1, s2)[0] == s1.script[0];
      assert Used(s, z)[i] == s1.script[0];
    }
  }

  lemma {:induction false} DelayedCall(s: State, ep: Ep)
    requires CompleteOne(s, ep).flow.Continue? && !Quiescent(s.ports[ep])
    ensures CompleteOne(s, ep).state.calls == s.calls + [Made(InDone(ep), |s.link.replies| + 1)]
  {
    hide CompleteOne, EncodeReply;
    DelayedAnswer(s, ep);
  }

  lemma {:induction false} NothingParked(s: State)
    requires Inv(s) && AtHead(s) && !s.attached
    ensures AllQuiescent(s.ports)
  {
    hide Inv, Flushed;
    forall ep: Ep ensures Quiescent(s.ports[ep]) {
      if s.ports[ep].endpoint.hostReady {
        assert IsParked(s.ports, s.ports[ep].endpoint.intrIn);
        HeldWasRead(s, s.ports[ep].endpoint.intrIn);
      }
    }
  }

  lemma {:induction false} CompletedFollows(s: State)
    requires AtPoll(s) && CompleteInterrupts(DeviceLoop(s).state).flow.Continue? && DeviceLoop(s).flow.Continue?
    ensures Follows(s, Run(CompleteInterrupts(DeviceLoop(s).state).state, Continue), true)
  {
    hide Follows, DeviceLoop, CompleteInterrupts;
    DeviceLoopFollows(s);
    CompleteFollows(DeviceLoop(s).state);
    FollowsTrans(s, DeviceLoop(s).state, CompleteInterrupts(DeviceLoop(s).state), true);
  }

  lemma {:induction false} AtPollFollows(s: State)
    requires AtPoll(s)
    ensures Follows(s, Run(Serve(s).state, Continue), true) && Serve(s).state.link.polls == []
  {
    hide Serve, PortFollows, Consumes, Logged;
    ServeFollows(s);
  }

  /** Whenever the loop comes to a poll, no request waits on an endpoint with a staged packet: what can be
      answered has been answered. Endpoint 1 is the exception when the device stages a packet there while
      it is told of the completion of endpoint 2. */
  lemma {:induction false} PollFindsNothing(s: State)
    requires Inv(s) && AtHead(s) && AtPoll(s)
    ensures
      var z := Serve(s).state;
      && (forall ep: Ep :: ep != 1 ==> !(z.ports[ep].endpoint.hostReady && z.ports[ep].pending))
      && (OwnStaging(Since(s, z), Used(s, z)) ==> !(z.ports[1].endpoint.hostReady && z.ports[1].pending))
    decreases |s.script|
  {
    hide Inv, AtHead, DeviceLoop, CompleteInterrupts, Dispatch, Serve, Follows, AtPoll, OwnStaging, Since, Used;
    AtPollStep(s);
    PassKeeps(s);
    AtPollFollows(s);
    var z := Serve(s).state;
    var d := DeviceLoop(s).state;
    var m := CompleteInterrupts(d).state;
    CompletedFollows(s);
    if m.link.polls == [] {
      PassLeaves(d);
      if OwnStaging(Since(s, z), Used(s, z)) {
        DeviceLoopFollows(s);
        CompleteFollows(d);
        LaterStaging(s, d, z);
        if d.attached {
          PassStaging(d);
        }
        OwnPassLeaves(d);
      }
    } else {
      var s3 := Polled(m);
      PolledFollows(s, m);
      var s4 := if m.link.polls[0].Nothing? then s3 else Dispatch(s3).state;
      DispatchFollows(s3);
      DispatchKeeps(s3);
      if m.link.polls[0].Ready? {
        FollowsTrans(s, s3, Dispatch(s3), true);
      }
      ServedHead(Dispatch(s3));
      AtPollFollows(s4);
      PollFindsNothing(s4);
      if OwnStaging(Since(s, z), Used(s, z)) {
        LaterStaging(s, s4, z);
      }
    }
  }

  lemma {:induction false} ServedHead(run: Run)
    requires Served(run)
    ensures run.flow.Continue? ==> Inv(run.state) && AtHead(run.state)
  {}

  lemma {:induction false} PassLeaves(s: State)
    requires Inv(s) && AtHead(s) && CompleteInterrupts(s).flow.Continue?
    ensures forall ep: Ep :: ep != 1 ==> Quiescent(CompleteInterrupts(s).state.ports[ep])
  {
    hide Inv, AtHead, CompleteFrom, CompleteOne;
    if s.attached {
      PassSettles(s);
    } else {
      NothingParked(s);
    }
  }

  lemma {:induction false} OwnPassLeaves(s: State)
    requires Inv(s) && AtHead(s) && CompleteInterrupts(s).flow.Continue?
    requires
      var s1 := CompleteOne(s, 1).state;
      s.attached && !Quiescent(s1.ports[2]) && s1.script != [] ==> StagesOnlyOn(s1.script[0], 2)
    ensures Quiescent(CompleteInterrupts(s).state.ports[1])
  {
    hide Inv, AtHead, CompleteFrom, CompleteOne;
    if s.attached {
      OwnStagingSettles(s);
    } else {
      NothingParked(s);
    }
  }

  // ------------------------------------------------------- commands, in turn

  /** What the server owes the host for a command besides RET_SUBMITs. Whether an unlink came in time is
      left open here. */
  function Owed(c: Command, t: Tables): seq<Reply> {
    match c
    case OpDevList(_, _) => [RetDevList(t.devlist)]
    case OpImport(_, _, busId) => [RetImport([0, 0, 0, 0] + t.path + busId + t.device)]
    case CmdSubmit(_, _) => []
    case CmdUnlink(u) => [RetUnlink(u.seqNum, 0)]
  }

  function AllOwed(cs: seq<Command>, t: Tables): seq<Reply> {
    if cs == [] then [] else Owed(cs[0], t) + AllOwed(cs[1..], t)
  }

  /** The replies other than RET_SUBMITs. */
  function Notice(r: Reply): seq<Reply> {
    match r
    case RetSubmit(_, _, _, _) => []
    case RetUnlink(n, _) => [RetUnlink(n, 0)]
    case _ => [r]
  }

  function Notices(rs: seq<Reply>): seq<Reply> {
    if rs == [] then [] else Notices(rs[..|rs| - 1]) + Notice(rs[|rs| - 1])
  }

  lemma {:induction false} NoticesSnoc(rs: seq<Reply>, r: Reply)
    ensures Notices(rs + [r]) == Notices(rs) + Notice(r)
  {
    assert (rs + [r])[..|rs|] == rs;
  }

  predicate IsImport(c: Command) {
    c.OpImport?
  }

  /** One RET_SUBMIT for the request, or none yet. */
  ghost predicate AnsweredOrParked(l: Link, m: Link, x: Submit) {
    m.replies == l.replies || exists r :: m.replies == l.replies + [r] && r.RetSubmit? && r.req == x
  }

  /** What one command leaves: the replies it is owed, and an attached device after an import. A submit adds
      one RET_SUBMIT for itself, or waits. */
  lemma {:induction false} DispatchAnswers(s: State, c: Command, rest: seq<byte>)
    requires Inv(s) && AtHead(s) && WellFormed(c) && s.link.input == EncodeCommand(c) + rest
    requires Dispatch(s).flow.Continue?
    ensures
      var t := Dispatch(s).state;
      && Notices(t.link.replies) == Notices(s.link.replies) + Owed(c, s.tables)
      && t.attached == (s.attached || IsImport(c))
      && (!c.CmdSubmit? ==> |t.link.replies| == |s.link.replies| + 1)
      && (c.CmdSubmit? ==> s.attached && AnsweredOrParked(s.link, t.link, c.body))
  {
    hide Inv, AtHead, ServeDevList, ServeImport, ServeSubmit, ServeUnlink, CommandBody, Notices, Owed;
    var s0 := s.(link := s.link.(heads := s.link.heads + [|s.link.received|]));
    HeadKeeps(s);
    var s1 := Read(s0, 4).state;
    assert s.link.input == CommandWord(c) + (CommandBody(c) + rest);
    assert s.link.input[..4] == CommandWord(c) && s1.link.input == CommandBody(c) + rest;
    match c {
      case OpDevList(_, _) => DevListAnswers(s1, c, rest);
      case OpImport(_, _, _) => ImportAnswers(s1, c, rest);
      case CmdSubmit(_, _) => SubmitAnswers(s1, c, rest);
      case CmdUnlink(_) => UnlinkAnswers(s1, c, rest);
    }
  }

  lemma {:induction false} HeadKeeps(s: State)
    requires Inv(s) && AtHead(s)
    ensures
      var s0 := s.(link := s.link.(heads := s.link.heads + [|s.link.received|]));
      var s1 := Read(s0, 4).state;
      Inv(s1) && (Read(s0, 4).flow.Continue? ==> AtHead(s1))
  {
    hide Inv, Flushed;
    var s0 := s.(link := s.link.(heads := s.link.heads + [|s.link.received|]));
    BookkeepingKeeps(s, s0.link.heads, s.link.polls);
    ReadKeeps(s0, 4);
  }

  lemma {:induction false} DevListAnswers(s: State, c: Command, rest: seq<byte>)
    requires c.OpDevList? && WellFormed(c) && s.link.input == CommandBody(c) + rest && ServeDevList(s).flow.Continue?
    ensures
      var t := ServeDevList(s).state;
      && t.link.replies == s.link.replies + [RetDevList(s.tables.devlist)] && t.attached == s.attached
      && Notices(t.link.replies) == Notices(s.link.replies) + Owed(c, s.tables)
  {
    hide EncodeReply, Notices;
    NoticesSnoc(s.link.replies, RetDevList(s.tables.devlist));
  }

  lemma {:induction false} ImportAnswers(s: State, c: Command, rest: seq<byte>)
    requires c.OpImport? && WellFormed(c) && s.link.input == CommandBody(c) + rest && ServeImport(s).flow.Continue?
    ensures
      var t := ServeImport(s).state;
      && t.link.replies == s.link.replies + Owed(c, s.tables) && |t.link.replies| == |s.link.replies| + 1 && t.attached
      && Notices(t.link.replies) == Notices(s.link.replies) + Owed(c, s.tables)
  {
    hide EncodeReply, Notices, Attach;
    var s1 := Read(s, 4).state;
    assert s1.link.input == c.busId + rest;
    assert s1.link.input[..32] == c.busId;
    var s2 := Read(s1, 32).state;
    assert Zeros(4) == [0, 0, 0, 0];
    var reply := RetImport([0, 0, 0, 0] + s.tables.path + c.busId + s.tables.device);
    var s3 := Send(s2, reply).state;
    AttachUpcalls(s3);
    AttachSays(s3);
    NoticesSnoc(s.link.replies, reply);
  }

  lemma {:induction false} AttachSays(s: State)
    ensures Attach(s).flow.Continue? ==> Attach(s).state.link.replies == s.link.replies
  {
    hide Attach, Plain;
    AttachUpcalls(s);
  }

  lemma {:induction false} UnlinkAnswers(s: State, c: Command, rest: seq<byte>)
    requires c.CmdUnlink? && s.link.input == CommandBody(c) + rest && ServeUnlink(s).flow.Continue?
    ensures
      var t := ServeUnlink(s).state;
      && |t.link.replies| == |s.link.replies| + 1 && t.attached == s.attached
      && Notices(t.link.replies) == Notices(s.link.replies) + Owed(c, s.tables)
  {
    hide EncodeReply, Notices, DecodeUnlink, EncodeUnlink, UnlinkStatus;
    assert s.link.input[..44] == EncodeUnlink(c.unlink);
    UnlinkRoundTrip(c.unlink);
    NoticesSnoc(s.link.replies, RetUnlink(c.unlink.seqNum, UnlinkStatus(s.ports, c.unlink.target)));
  }

  lemma {:induction false} SubmitAnswers(s: State, c: Command, rest: seq<byte>)
    requires Inv(s) && AtHead(s)
    requires c.CmdSubmit? && WellFormed(c) && s.link.input == CommandBody(c) + rest && ServeSubmit(s).flow.Continue?
    ensures
      var t := ServeSubmit(s).state;
      && s.attached && t.attached && AnsweredOrParked(s.link, t.link, c.body)
      && Notices(t.link.replies) == Notices(s.link.replies) + Owed(c, s.tables)
  {
    hide Inv, Flushed, Transfer, DecodeSubmit, EncodeSubmit, Notices;
    assert s.link.input[..44] == EncodeSubmit(c.body);
    SubmitRoundTrip(c.body);
    ReadKeeps(s, 44);
    var s1 := Read(s, 44).state;
    BegunKeeps(s1, c.body);
    var s2 := Begun(s1, c.body);
    TransferAttached(s2, c.body);
    var reply := TransferOutcome(s2, c.body);
    if reply.Some? {
      NoticesSnoc(s.link.replies, reply.value);
      assert Notices(s.link.replies) + [] == Notices(s.link.replies);
    }
  }

  /** A request leaves the device attached. */
  lemma {:induction false} TransferAttached(s: State, r: Submit)
    requires Acceptable(s, r) && s.link.gathered == []
    ensures Transfer(s, r).state.attached == s.attached
  {
    hide Call, OutLoop, Gather, EncodeReply;
    CallLink(SetRetired(s, 0, Discarded(NewSetup)), SetupStage(r.setup));
    var s1 := if r.ep == 0 then Call(SetRetired(s, 0, Discarded(NewSetup)), SetupStage(r.setup)) else Run(s, Continue);
    if s1.flow.Continue? {
      OutLoopAttached(s1.state, r, r.ep != 0 && s1.state.ports[r.ep].haltedOut, []);
      GatherAttached(Ticked(s1.state), r, Capacity(r), Now(s1.state));
    }
  }

  lemma {:induction false} OutLoopAttached(s: State, r: Submit, halted: bool, data: seq<byte>)
    requires r.ep < 4
    ensures OutLoop(s, r, halted, data).state.attached == s.attached
    decreases |s.script|
  {
    hide Call, DeviceLoop, EncodeReply;
    if |data| >= r.length {
      CallLink(SetRetired(s, 0, Acknowledged), InDone(0));
    } else {
      var count := OutCount(s, r, |data|);
      var s1 := Read(s, count);
      if s1.flow.Continue? {
        CallLink(s1.state, OutData(r.ep, s.link.input[..count]));
        var s2 := if halted then s1 else Call(s1.state, OutData(r.ep, s.link.input[..count]));
        DeviceLoopLink(s2.state);
        if OutTurn(s, r, halted, count).flow.Continue? {
          OutLoopAttached(OutTurn(s, r, halted, count).state, r, halted, data + s.link.input[..count]);
        }
      }
    }
  }

  lemma {:induction false} GatherAttached(s: State, r: Submit, capacity: nat, started: uint32)
    requires r.ep < 4 && |s.link.gathered| <= capacity <= TX_BUFFER_BYTES
    ensures Gather(s, r, capacity, started).state.attached == s.attached
    decreases |s.script|
  {
    hide GatherTurn, FinishIn;
    FinishInAttached(s, r, STATUS_OK);
    if |s.link.gathered| < capacity {
      GatherTurnBounded(s, r, capacity, started);
      GatherTurnAttached(s, r, capacity, started);
      var t := GatherTurn(s, r, capacity, started);
      if t.run.flow.Continue? {
        if t.status.Some? {
          FinishInAttached(t.run.state, r, t.status.value);
        } else {
          GatherAttached(t.run.state, r, capacity, started);
        }
      }
    }
  }

  lemma {:induction false} FinishInAttached(s: State, r: Submit, status: uint32)
    requires |s.link.gathered| <= TX_BUFFER_BYTES
    ensures FinishIn(s, r, status).state.attached == s.attached
  {
    hide Call, EncodeReply;
    CallLink(s, OutData(0, []));
  }

  lemma {:induction false} GatherTurnAttached(s: State, r: Submit, capacity: nat, started: uint32)
    requires r.ep < 4 && |s.link.gathered| <= capacity
    ensures GatherTurn(s, r, capacity, started).run.state.attached == s.attached
  {
    hide Call, DeviceLoop;
    DeviceLoopLink(s);
    CallLink(Taken(DeviceLoop(s).state, r.ep), InDone(r.ep));
  }

  // --------------------------------------------------------- between commands

  /** The device loop and the pass write RET_SUBMITs only, and leave the device attached or not. */
  lemma {:induction false} PassAnswers(s: State)
    requires DeviceLoop(s).flow.Continue? && CompleteInterrupts(DeviceLoop(s).state).flow.Continue?
    ensures
      var m := CompleteInterrupts(DeviceLoop(s).state).state;
      Notices(m.link.replies) == Notices(s.link.replies) && m.attached == s.attached
  {
    hide DeviceLoop, CompleteOne, Notices;
    DeviceLoopLink(s);
    var d := DeviceLoop(s).state;
    if d.attached {
      CompleteOneAnswers(d, 1);
      var d1 := CompleteOne(d, 1).state;
      assert CompleteFrom(d, 1) == CompleteFrom(d1, 2);
      CompleteOneAnswers(d1, 2);
      var d2 := CompleteOne(d1, 2).state;
      assert CompleteFrom(d1, 2) == CompleteFrom(d2, 3);
      CompleteOneAnswers(d2, 3);
      var d3 := CompleteOne(d2, 3).state;
      assert CompleteFrom(d2, 3) == CompleteFrom(d3, 4);
    }
  }

  lemma {:induction false} CompleteOneAnswers(s: State, ep: Ep)
    ensures CompleteOne(s, ep).state.attached == s.attached
    ensures CompleteOne(s, ep).flow.Continue? ==> Notices(CompleteOne(s, ep).state.link.replies) == Notices(s.link.replies)
  {
    hide EncodeReply, Call, Notices;
    var p := s.ports[ep];
    if p.endpoint.hostReady && p.pending && |p.packet| <= p.endpoint.intrIn.length {
      var reply := RetSubmit(p.endpoint.intrIn, STATUS_OK, |p.packet|, p.packet);
      var s1 := Send(s, reply).state;
      CallLink(SetPort(s1, ep, Retired(Unparked(p), Shipped)), InDone(ep));
      NoticesSnoc(s.link.replies, reply);
      assert Notices(s.link.replies) + [] == Notices(s.link.replies);
    }
  }

  function ReadyPolls(ps: seq<Poll>): nat {
    if ps == [] then 0 else (if ps[0].Ready? then 1 else 0) + ReadyPolls(ps[1..])
  }

  /** From one state to another the first `n` commands were served, and no more: the submits read are
      theirs, in order; every other command has had its reply, in order; the device is attached if one of
      them was an import; and the input is left at the next command. */
  predicate ServedSince(s: State, z: State, cs: seq<Command>, n: nat)
    requires AllWellFormed(cs)
  {
    && n <= |cs|
    && z.link.consumed == s.link.consumed + SubmitsOf(cs[..n])
    && Notices(z.link.replies) == Notices(s.link.replies) + AllOwed(cs[..n], s.tables)
    && z.attached == (s.attached || exists i :: 0 <= i < n && IsImport(cs[i]))
    && z.link.input == EncodeCommands(cs[n..])
  }

  lemma {:induction false} ServedNone(s: State, m: State, cs: seq<Command>)
    requires AllWellFormed(cs) && m.link.input == EncodeCommands(cs)
    requires m.link.consumed == s.link.consumed && Notices(m.link.replies) == Notices(s.link.replies) && m.attached == s.attached
    ensures ServedSince(s, m, cs, 0)
  {
    hide Notices, EncodeCommands;
    assert cs[..0] == [] && cs[0..] == cs;
    assert s.link.consumed + [] == s.link.consumed && Notices(s.link.replies) + [] == Notices(s.link.replies);
  }

  lemma {:induction false} ServedAfter(s: State, m: State, z: State, cs: seq<Command>, n: nat)
    requires AllWellFormed(cs) && ServedSince(m, z, cs, n) && m.tables == s.tables
    requires m.link.consumed == s.link.consumed && Notices(m.link.replies) == Notices(s.link.replies) && m.attached == s.attached
    ensures ServedSince(s, z, cs, n)
  {
    hide Notices, EncodeCommands, AllOwed, SubmitsOf, IsImport;
  }

  lemma {:induction false} ServedMore(s: State, m: State, z: State, cs: seq<Command>, n: nat)
    requires AllWellFormed(cs) && cs != [] && ServedSince(m, z, cs[1..], n) && m.tables == s.tables
    requires m.link.consumed == s.link.consumed + SubmitOf(cs[0])
    requires Notices(m.link.replies) == Notices(s.link.replies) + Owed(cs[0], s.tables)
    requires m.attached == (s.attached || IsImport(cs[0]))
    ensures ServedSince(s, z, cs, n + 1)
  {
    hide Notices, EncodeCommands, AllOwed, SubmitsOf, IsImport, Owed, SubmitOf;
    ServedStep(cs, n, s.tables);
    PrefixAssoc(s.link.consumed, SubmitOf(cs[0]), SubmitsOf(cs[1..][..n]));
    PrefixAssoc(Notices(s.link.replies), Owed(cs[0], s.tables), AllOwed(cs[1..][..n], s.tables));
  }

  /** A connection whose host sends well-formed commands, observed at a poll. Each poll that reported input
      has served exactly one command. */
  lemma {:induction false} CommandsAreServed(s: State, cs: seq<Command>)
    requires Inv(s) && AtHead(s) && AtPoll(s)
    requires AllWellFormed(cs) && s.link.input == EncodeCommands(cs)
    ensures ServedSince(s, Serve(s).state, cs, ReadyPolls(s.link.polls))
    decreases |s.script|
  {
    hide Inv, AtHead, DeviceLoop, CompleteInterrupts, Dispatch, Serve, Follows, AtPoll, EncodeCommand, Owed, Notices, IsImport;
    hide ServedSince, SubmitOf;
    AtPollStep(s);
    PassKeeps(s);
    PassAnswers(s);
    IdleReads(s);
    IdleReads(DeviceLoop(s).state);
    CompletedFollows(s);
    var m := CompleteInterrupts(DeviceLoop(s).state).state;
    PollsStay(s, m);
    if m.link.polls == [] {
      ServedNone(s, m, cs);
    } else {
      var s3 := Polled(m);
      if m.link.polls[0].Nothing? {
        CommandsAreServed(s3, cs);
        ServedAfter(s, s3, Serve(s).state, cs, ReadyPolls(s3.link.polls));
      } else if cs == [] {
        DispatchAtEnd(s3);
      } else {
        DispatchServes(s3, cs);
        CommandsAreServed(Dispatch(s3).state, cs[1..]);
        ServedMore(s3, Dispatch(s3).state, Serve(s).state, cs, ReadyPolls(s3.link.polls));
        ServedAfter(s, s3, Serve(s).state, cs, ReadyPolls(s.link.polls));
      }
    }
  }

  lemma {:induction false} DispatchServes(s: State, cs: seq<Command>)
    requires Inv(s) && AtHead(s) && AllWellFormed(cs) && cs != [] && s.link.input == EncodeCommands(cs)
    requires Dispatch(s).flow.Continue?
    ensures
      var m := Dispatch(s).state;
      && Inv(m) && AtHead(m) && m.tables == s.tables && m.link.polls == s.link.polls
      && m.link.consumed == s.link.consumed + SubmitOf(cs[0])
      && Notices(m.link.replies) == Notices(s.link.replies) + Owed(cs[0], s.tables)
      && m.attached == (s.attached || IsImport(cs[0]))
      && m.link.input == EncodeCommands(cs[1..])
  {
    hide Inv, AtHead, Dispatch, Follows, EncodeCommand, Owed, Notices, IsImport, SubmitOf;
    DispatchKeeps(s);
    ServedHead(Dispatch(s));
    DispatchFollows(s);
    DispatchPolls(s);
    DispatchReads(s, cs[0], EncodeCommands(cs[1..]));
    DispatchAnswers(s, cs[0], EncodeCommands(cs[1..]));
  }

  lemma {:induction false} PollsStay(s: State, m: State)
    requires m == CompleteInterrupts(DeviceLoop(s).state).state && Follows(s, Run(m, Continue), true)
    ensures m.link.polls == s.link.polls && m.tables == s.tables
  {
    hide DeviceLoop, CompleteInterrupts, PortFollows, Logged;
    DeviceLoopWithin(s);
    CompleteWithin(DeviceLoop(s).state);
  }

  lemma {:induction false} DispatchPolls(s: State)
    requires Follows(s, Dispatch(s), true)
    ensures Dispatch(s).state.link.polls == s.link.polls && Dispatch(s).state.tables == s.tables
  {
    hide Dispatch, PortFollows, Logged, Explained;
    DispatchLater(s);
  }

  lemma {:induction false} ServedStep(cs: seq<Command>, n: nat, t: Tables)
    requires cs != [] && n <= |cs| - 1
    ensures SubmitsOf(cs[..n + 1]) == SubmitOf(cs[0]) + SubmitsOf(cs[1..][..n])
    ensures AllOwed(cs[..n + 1], t) == Owed(cs[0], t) + AllOwed(cs[1..][..n], t)
    ensures cs[n + 1..] == cs[1..][n..]
    ensures (exists i :: 0 <= i < n + 1 && IsImport(cs[i])) <==> IsImport(cs[0]) || exists i :: 0 <= i < n && IsImport(cs[1..][i])
  {
    hide SubmitOf, Owed, IsImport;
    assert cs[..n + 1][0] == cs[0] && cs[..n + 1][1..] == cs[1..][..n];
    if i :| 0 < i < n + 1 && IsImport(cs[i]) {
      assert IsImport(cs[1..][i - 1]);
    }
    if i :| 0 <= i < n && IsImport(cs[1..][i]) {
      assert IsImport(cs[i + 1]);
    }
  }

  // ---------------------------------------------------- submits, one by one

  lemma {:induction false} CallNeverFatal(s: State, u: Upcall)
    requires u.InDone? ==> !s.ports[u.ep].pending
    ensures !Call(s, u).flow.Fatal?
  {
    hide ApplyAll;
    if s.script != [] {
      ApplyAllFlow(Noted(s, u).(script := s.script[1..]), s.script[0]);
    }
  }

  lemma {:induction false} DeviceLoopNeverFatal(s: State)
    ensures !DeviceLoop(s).flow.Fatal?
  {
    hide Call;
    if s.timer.Some? {
      CallNeverFatal(Disarmed(s), TimerFired(s.timer.value.callback));
    }
    CallNeverFatal(TimerStep(s).state, Loop);
  }

  lemma {:induction false} AnswerFatal(s: State, r: Submit, status: uint32, actual: uint32, payload: seq<byte>)
    ensures Answer(s, r, status, actual, payload).flow.Fatal? ==> Answer(s, r, status, actual, payload).state.link.budget == 0
  {
    hide EncodeReply;
  }

  lemma {:induction false} OutLoopFatal(s: State, r: Submit, halted: bool, data: seq<byte>)
    requires r.ep < 4 && OutLoop(s, r, halted, data).flow.Fatal?
    ensures |data| + |s.link.input| < r.length || OutLoop(s, r, halted, data).state.link.budget == 0
    decreases |s.script|
  {
    hide Call, DeviceLoop, Answer;
    if |data| >= r.length {
      CallNeverFatal(SetRetired(s, 0, Acknowledged), InDone(0));
      var s1 := if r.ep == 0 && s.ports[0].pending
                then Call(SetRetired(s, 0, Acknowledged), InDone(0)) else Run(s, Continue);
      AnswerFatal(s1.state, r, NEG_EPIPE, 0, []);
      AnswerFatal(s1.state, r, STATUS_OK, r.length, []);
    } else {
      var count := OutCount(s, r, |data|);
      var s1 := Read(s, count);
      if s1.flow.Continue? {
        var u := OutData(r.ep, s.link.input[..count]);
        CallNeverFatal(s1.state, u);
        CallLink(s1.state, u);
        var s2 := if halted then s1 else Call(s1.state, u);
        DeviceLoopNeverFatal(s2.state);
        DeviceLoopLink(s2.state);
        if OutTurn(s, r, halted, count).flow.Continue? {
          OutLoopFatal(OutTurn(s, r, halted, count).state, r, halted, data + s.link.input[..count]);
        }
      }
    }
  }

  lemma {:induction false} FinishInFatal(s: State, r: Submit, status: uint32)
    requires |s.link.gathered| <= TX_BUFFER_BYTES
    ensures FinishIn(s, r, status).flow.Fatal? ==> FinishIn(s, r, status).state.link.budget == 0
  {
    hide Call, Answer;
    CallNeverFatal(s, OutData(0, []));
    var s1 := if r.ep == 0 then Call(s, OutData(0, [])) else Run(s, Continue);
    AnswerFatal(s1.state, r, status, |s.link.gathered|, s.link.gathered);
  }

  lemma {:induction false} GatherTurnFatal(s: State, r: Submit, capacity: nat, started: uint32)
    requires r.ep < 4 && |s.link.gathered| <= capacity == Capacity(r) && s.link.current == Some(r)
    ensures GatherTurn(s, r, capacity, started).run.flow.Fatal? ==> Overrun(GatherTurn(s, r, capacity, started).run.state)
  {
    hide Call, DeviceLoop;
    DeviceLoopNeverFatal(s);
    DeviceLoopLink(s);
    CallNeverFatal(Taken(DeviceLoop(s).state, r.ep), InDone(r.ep));
  }

  lemma {:induction false} GatherFatal(s: State, r: Submit, capacity: nat, started: uint32)
    requires r.ep < 4 && |s.link.gathered| <= capacity == Capacity(r) && s.link.current == Some(r)
    requires Gather(s, r, capacity, started).flow.Fatal?
    ensures Gather(s, r, capacity, started).state.link.budget == 0 || Overrun(Gather(s, r, capacity, started).state)
    decreases |s.script|
  {
    hide FinishIn, GatherTurn, Overrun, Follows;
    FinishInFatal(s, r, STATUS_OK);
    if |s.link.gathered| < capacity {
      GatherTurnBounded(s, r, capacity, started);
      GatherTurnFollows(s, r, capacity, started);
      GatherTurnFatal(s, r, capacity, started);
      var t := GatherTurn(s, r, capacity, started);
      if t.run.flow.Continue? {
        if t.status.Some? {
          FinishInFatal(t.run.state, r, t.status.value);
        } else {
          GatherFatal(t.run.state, r, capacity, started);
        }
      }
    }
  }

  lemma {:induction false} TransferFatal(s: State, r: Submit)
    requires Acceptable(s, r) && s.link.gathered == [] && s.link.current == Some(r) && Transfer(s, r).flow.Fatal?
    ensures
      var t := Transfer(s, r).state;
      (r.direction == 0 && |s.link.input| < r.length) || t.link.budget == 0 || Overrun(t)
  {
    hide Call, Answer, OutLoop, Gather, Overrun;
    AnswerFatal(s, r, NEG_EBUSY, 0, []);
    CallLink(SetRetired(s, 0, Discarded(NewSetup)), SetupStage(r.setup));
    CallNeverFatal(SetRetired(s, 0, Discarded(NewSetup)), SetupStage(r.setup));
    var s1 := if r.ep == 0 then Call(SetRetired(s, 0, Discarded(NewSetup)), SetupStage(r.setup)) else Run(s, Continue);
    if s1.flow.Continue? {
      var halted := r.ep != 0 && s1.state.ports[r.ep].haltedOut;
      if r.direction == 0 {
        if OutLoop(s1.state, r, halted, []).flow.Fatal? {
          OutLoopFatal(s1.state, r, halted, []);
        }
      } else if Gather(Ticked(s1.state), r, Capacity(r), Now(s1.state)).flow.Fatal? {
        GatherFatal(Ticked(s1.state), r, Capacity(r), Now(s1.state));
      }
    }
  }

  /** A submit that is read whole on an attached connection is always taken up. It is refused, with the
      connection closed and nothing else done, exactly when Refuses says so; otherwise the connection is
      only closed because the payload is short, the peer accepts no more, or a packet does not fit. */
  lemma {:induction false} SubmitIsTakenUp(s: State)
    requires s.attached && 44 <= |s.link.input|
    ensures
      var r := DecodeSubmit(s.link.input[..44]);
      var run := ServeSubmit(s);
      var t := run.state;
      && t.link.consumed == s.link.consumed + [r]
      && (Refuses(s, r) ==>
            run.flow.Fatal? && t.ports == s.ports && t.calls == s.calls && t.link.sent == s.link.sent && t.link.replies == s.link.replies)
      && (!Refuses(s, r) && run.flow.Fatal? ==>
            (r.direction == 0 && |s.link.input| - 44 < r.length) || t.link.budget == 0 || Overrun(t))
  {
    hide Transfer, DecodeSubmit, Overrun;
    var r := DecodeSubmit(s.link.input[..44]);
    var s2 := Begun(Read(s, 44).state, r);
    if !Refuses(s, r) {
      assert Acceptable(s2, r);
      TransferWithin(s2, r);
      if Transfer(s2, r).flow.Fatal? {
        TransferFatal(s2, r);
      }
    }
  }

  /** Before the device is attached no submit is served. */
  lemma {:induction false} UnattachedRefuses(s: State)
    requires !s.attached
    ensures ServeSubmit(s) == Run(s, Fatal)
  {}

  /** A word that is no command stops the process; nothing was written, and the device was told nothing. */
  lemma {:induction false} UnknownStops(s: State)
    requires 4 <= |s.link.input| && UnknownWord(s.link.input[..4])
    ensures
      var t := Dispatch(s).state;
      Dispatch(s).flow.Aborted? && t.ports == s.ports && t.calls == s.calls && t.link.sent == s.link.sent
  {}

  // ------------------------------------------------------- the device's turn

  function Loops(calls: seq<Made>): nat {
    if calls == [] then 0 else Loops(calls[..|calls| - 1]) + if calls[|calls| - 1].upcall.Loop? then 1 else 0
  }

  lemma {:induction false} LoopsGrow(a: seq<Made>, b: seq<Made>)
    requires a <= b
    ensures Loops(a) <= Loops(b)
    decreases |b|
  {
    if |a| < |b| {
      LoopsGrow(a, b[..|b| - 1]);
    } else {
      assert a == b;
    }
  }

  lemma {:induction false} DeviceLoopRuns(s: State)
    requires DeviceLoop(s).flow.Continue?
    ensures Loops(DeviceLoop(s).state.calls) >= Loops(s.calls) + 1
  {
    hide Call, Explained, Consumes, Used, Timeouts, Requests;
    if s.timer.Some? {
      CallStep(Disarmed(s), TimerFired(s.timer.value.callback));
    }
    var s1 := TimerStep(s).state;
    LoopsGrow(s.calls, s1.calls);
    CallStep(s1, Loop);
    assert DeviceLoop(s).state.calls[..|s1.calls|] == s1.calls;
  }

  lemma {:induction false} FollowsLoops(s: State, run: Run)
    requires Follows(s, run, true)
    ensures Loops(run.state.calls) >= Loops(s.calls)
  {
    hide Loops, PortFollows, Consumes, Explained;
    LoopsGrow(s.calls, run.state.calls);
  }

  /** The device gets to run at least once for every poll of the connection. */
  lemma {:induction false} DeviceRunsEveryTurn(s: State)
    ensures
      var z := Serve(s).state;
      |z.link.polls| <= |s.link.polls| && Loops(z.calls) >= Loops(s.calls) + |s.link.polls| - |z.link.polls|
    decreases |s.script|
  {
    hide DeviceLoop, CompleteInterrupts, Dispatch, Follows, Loops;
    DeviceLoopFollows(s);
    DeviceLoopWithin(s);
    FollowsLoops(s, DeviceLoop(s));
    var s1 := DeviceLoop(s);
    if s1.flow.Continue? {
      DeviceLoopRuns(s);
      CompleteFollows(s1.state);
      CompleteWithin(s1.state);
      FollowsLoops(s1.state, CompleteInterrupts(s1.state));
      var s2 := CompleteInterrupts(s1.state);
      if s2.flow.Continue? && s2.state.link.polls != [] {
        var s3 := Polled(s2.state);
        if s2.state.link.polls[0].Nothing? {
          DeviceRunsEveryTurn(s3);
        } else if s2.state.link.polls[0].Ready? {
          DispatchFollows(s3);
          DispatchLater(s3);
          FollowsLoops(s3, Dispatch(s3));
          if Dispatch(s3).flow.Continue? {
            DeviceRunsEveryTurn(Dispatch(s3).state);
          }
        }
      }
    }
  }

  // ------------------------------------------------------ runs of the server

  predicate StartsWith(l: Link, c: Peer) {
    l == Link(c.input, c.budget, c.polls, [], [], [], [], [], [], None, [])
  }

  /** From the end of one connection to the start of the next. */
  ghost predicate HandsOver(y: State, a: State) {
    && !a.attached && Blank(a)
    && a.calls == y.calls + [Made(BootReset, |y.link.replies|)]
    && (a.timer.Some? ==> a.timer.value.id >= |y.armings|)
  }

  /** One connection after another, each with what its peer sends, and each but the last closed. */
  ghost predicate InTurn(zs: seq<Session>, peers: seq<Peer>) {
    && |zs| <= |peers|
    && (forall k :: 0 <= k < |zs| ==> StartsWith(zs[k].start.link, peers[k]))
    && (forall k :: 0 <= k < |zs| - 1 ==> Serve(zs[k].start).flow.Fatal? && HandsOver(zs[k].end, zs[k + 1].start))
  }

  /** The last connection was not closed, or the reset after it did not return. */
  ghost predicate StopsAt(z: Session) {
    !(Serve(z.start).flow.Fatal? && Disconnect(z.end).flow.Continue?)
  }

  lemma {:induction false} InTurnCons(z: Session, zs: seq<Session>, peers: seq<Peer>)
    requires peers != [] && InTurn(zs, peers[1..]) && StartsWith(z.start.link, peers[0])
    requires zs != [] ==> Serve(z.start).flow.Fatal? && HandsOver(z.end, zs[0].start)
    ensures InTurn([z] + zs, peers)
  {
    hide Serve, HandsOver, StartsWith;
    var all := [z] + zs;
    forall k | 0 <= k < |all| ensures StartsWith(all[k].start.link, peers[k]) {
      if k > 0 {
        assert all[k] == zs[k - 1] && peers[k] == peers[1..][k - 1];
      }
    }
    forall k | 0 <= k < |all| - 1 ensures Serve(all[k].start).flow.Fatal? && HandsOver(all[k].end, all[k + 1].start) {
      if k > 0 {
        assert all[k] == zs[k - 1] && all[k + 1] == zs[k];
      }
    }
  }

  /** The server serves its peers in turn, each with what that peer sends; a connection that was closed is
      followed by the next one as soon as the reset of the device has returned. */
  lemma {:induction false} PeersInTurn(s: State, peers: seq<Peer>)
    requires Resting(s)
    ensures
      var zs := Sessions(s, peers);
      && InTurn(zs, peers) && (peers != [] ==> zs != [] && zs[0].start.calls == s.calls)
      && (zs != [] && |zs| < |peers| ==> StopsAt(zs[|zs| - 1]))
    decreases |peers|
  {
    hide Inv, Serve, Disconnect, Accepted, Resting, AtHead, AttachedFirst, Sessions, HandsOver, InTurn, StopsAt, StartsWith;
    if peers == [] {
      NoPeers(s);
      NoneInTurn();
    } else {
      SessionsStep(s, peers);
      AcceptedFresh(s, peers[0]);
      AcceptedStarts(s, peers[0]);
      var a := Accepted(s, peers[0]);
      ServeKeeps(a);
      var r := Serve(a);
      var z := Session(a, r.state);
      NoneInTurn();
      if r.flow.Fatal? && Disconnect(r.state).flow.Continue? {
        var d := Disconnect(r.state).state;
        DisconnectForgets(r.state);
        PeersInTurn(d, peers[1..]);
        FirstHandsOver(z, d, peers[1..]);
        InTurnCons(z, Sessions(d, peers[1..]), peers);
      } else {
        InTurnCons(z, [], peers);
        Stops(z);
      }
    }
  }

  lemma {:induction false} NoneInTurn()
    ensures forall peers: seq<Peer> :: InTurn([], peers)
  {}

  lemma {:induction false} Stops(z: Session)
    requires !(Serve(z.start).flow.Fatal? && Disconnect(z.end).flow.Continue?)
    ensures StopsAt(z)
  {
    hide Serve, Disconnect;
  }

  lemma {:induction false} FirstHandsOver(z: Session, d: State, peers: seq<Peer>)
    requires Inv(z.end) && Disconnect(z.end) == Run(d, Continue)
    ensures peers != [] ==> Sessions(d, peers) != [] && HandsOver(z.end, Sessions(d, peers)[0].start)
  {
    hide Inv, Serve, Disconnect, Accepted, HandsOver, Sessions;
    if peers != [] {
      DisconnectHandsOver(z.end, peers[0]);
      SessionsStep(d, peers);
    }
  }

  lemma {:induction false} AcceptedStarts(s: State, c: Peer)
    ensures StartsWith(Accepted(s, c).link, c)
    ensures
      var a := Accepted(s, c);
      && a == s.(ports := a.ports, link := a.link)
      && forall ep: Ep :: a.ports[ep] == s.ports[ep].(ledger := a.ports[ep].ledger)
  {}

  lemma {:induction false} DisconnectHandsOver(y: State, c: Peer)
    requires Inv(y) && Disconnect(y).flow.Continue?
    ensures HandsOver(y, Accepted(Disconnect(y).state, c))
  {
    hide Inv, Disconnect, Resting;
    DisconnectForgets(y);
    DisconnectUpcalls(y);
    AcceptedFresh(Disconnect(y).state, c);
  }

  /** From power on: the device is opened once, before anything else. */
  lemma {:induction false} ServerServesInTurn(clock: nat -> nat, script: seq<seq<Callback>>, tables: Tables, peers: seq<Peer>)
    requires TablesOk(tables) && script != []
    ensures
      var zs := ServerRun(clock, script, tables, peers);
      && InTurn(zs, peers)
      && (zs != [] ==> zs[0].start.calls == [Made(HostOpen, 0)])
      && (zs != [] && |zs| < |peers| ==> StopsAt(zs[|zs| - 1]))
      && (peers != [] && Call(PowerOn(clock, script, tables), HostOpen).flow.Continue? ==> zs != [])
  {
    hide InTurn, StopsAt, Call, Sessions, Resting, Serve, HandsOver, Explained, Consumes, Used, Timeouts, Requests;
    var s := PowerOn(clock, script, tables);
    BootRests(clock, script, tables);
    CallStep(s, HostOpen);
    var t := Call(s, HostOpen).state;
    PeersInTurn(t, peers);
    NoneInTurn();
  }

  /** Every run, every connection: whenever the loop comes to a poll, nothing waits that could be answered,
      the device has run at least once for every poll, and if the host sends well-formed commands, every
      poll that reported input has served exactly one. */
  lemma {:induction false} EveryRunServes(clock: nat -> nat, script: seq<seq<Callback>>, tables: Tables, peers: seq<Peer>, k: nat, cs: seq<Command>)
    requires TablesOk(tables) && k < |ServerRun(clock, script, tables, peers)|
    requires AtPoll(ServerRun(clock, script, tables, peers)[k].start)
    requires AllWellFormed(cs) && ServerRun(clock, script, tables, peers)[k].start.link.input == EncodeCommands(cs)
    ensures
      var z := ServerRun(clock, script, tables, peers)[k];
      var s, t := z.start, z.end;
      && (forall ep: Ep :: ep != 1 ==> !(t.ports[ep].endpoint.hostReady && t.ports[ep].pending))
      && (OwnStaging(Since(s, t), Used(s, t)) ==> !(t.ports[1].endpoint.hostReady && t.ports[1].pending))
      && Loops(t.calls) >= Loops(s.calls) + |s.link.polls|
      && ServedSince(s, t, cs, ReadyPolls(s.link.polls))
  {
    hide Sessions, Call, Inv, AtHead, Serve, Blank, AtPoll, Loops, ServedSince, Since, Used, OwnStaging, EncodeCommands;
    ConnectionsAreIsolated(clock, script, tables, peers, k);
    var z := ServerRun(clock, script, tables, peers)[k];
    AtPollFollows(z.start);
    PollFindsNothing(z.start);
    DeviceRunsEveryTurn(z.start);
    CommandsAreServed(z.start, cs);
  }

  /** Every run, every connection: it ends for a cause that the host, the device or the network gave. */
  lemma {:induction false} EveryRunEndsForCause(clock: nat -> nat, script: seq<seq<Callback>>, tables: Tables, peers: seq<Peer>, k: nat)
    requires TablesOk(tables) && k < |ServerRun(clock, script, tables, peers)|
    ensures
      var z := ServerRun(clock, script, tables, peers)[k];
      match Serve(z.start).flow
      case Continue => false
      case Fatal => ClosedFor(z.start, z.end)
      case Aborted => StoppedFor(z.start, z.end)
      case Exhausted => z.end.script == [] || z.end.link.polls == []
  {
    hide Sessions, Call, Inv, FreshStart, Serve, Blank, PortFollows, Consumes, Logged, ClosedFor, StoppedFor;
    ConnectionsAreIsolated(clock, script, tables, peers, k);
    ServeFollows(ServerRun(clock, script, tables, peers)[k].start);
  }

  /** Every run, every connection: the timer was armed as the device's callbacks asked; the timer callbacks
      that were called are those of the armings that fired, each once, in order, and none before the reading
      of its arming plus its delay. */
  lemma {:induction false} EveryRunKeepsTime(clock: nat -> nat, script: seq<seq<Callback>>, tables: Tables, peers: seq<Peer>, k: nat)
    requires TablesOk(tables) && k < |ServerRun(clock, script, tables, peers)|
    ensures
      var z := ServerRun(clock, script, tables, peers)[k];
      var s, t := z.start, z.end;
      && (!Serve(s).flow.Aborted? ==> Requests(NewArmings(s, t)) == Timeouts(Used(s, t)))
      && TimerCalls(Since(s, t)) == FiredCallbacks(NewFirings(s, t))
      && (forall i :: 0 <= i < |t.fired| ==>
            var f := t.fired[i];
            && f.id < |t.armings| && f.callback == t.armings[f.id].callback
            && (Monotone(t.clock) ==> t.armings[f.id].at + t.armings[f.id].milliseconds <= f.at))
      && (forall i, j :: 0 <= i < j < |t.fired| ==> t.fired[i].id < t.fired[j].id)
  {
    hide Sessions, Call, FreshStart, Serve, Blank, PortFollows, Explained, Timeouts, Requests, TimerCalls, FiredCallbacks;
    hide PortsOk, LinkInv;
    ConnectionsAreIsolated(clock, script, tables, peers, k);
    var z := ServerRun(clock, script, tables, peers)[k];
    ServeFollows(z.start);
    forall i | 0 <= i < |z.end.fired| ensures FiringOk(z.end.fired[i], z.end.armings, z.end.clock) {}
  }
}
