/** The input never loses sync: each dispatch starts at the first byte of the next command. */
module Framing {
  import opened Bytes
  import opened Wire
  import opened Model
  import opened Adapter
  import opened Ledgers
  import opened Callbacks
  import opened Invariants
  import opened Transfers
  import opened Progress

  predicate AllWellFormed(cs: seq<Command>) {
    forall i :: 0 <= i < |cs| ==> WellFormed(cs[i])
  }

  function EncodeCommands(cs: seq<Command>): seq<byte>
    requires AllWellFormed(cs)
  {
    if cs == [] then [] else EncodeCommand(cs[0]) + EncodeCommands(cs[1..])
  }

  /** Where each command starts when the first starts at `base`, and where the last one ends. */
  function Offsets(base: nat, cs: seq<Command>): (os: seq<nat>)
    requires AllWellFormed(cs)
    ensures |os| == |cs| + 1
    decreases |cs|
  {
    if cs == [] then [base] else [base] + Offsets(base + |EncodeCommand(cs[0])|, cs[1..])
  }

  function SubmitOf(c: Command): seq<Submit> {
    if c.CmdSubmit? then [c.body] else []
  }

  function SubmitsOf(cs: seq<Command>): seq<Submit> {
    if cs == [] then [] else SubmitOf(cs[0]) + SubmitsOf(cs[1..])
  }

  // ----------------------------------------------- what each command consumes

  /** The input is left at `rest`, `n` bytes further on. */
  predicate LeavesAt(l: Link, m: Link, n: nat, rest: seq<byte>) {
    m.input == rest && |m.received| == |l.received| + n
  }

  lemma {:induction false} CountedRead(l: Link, m: Link, n: nat, rest: seq<byte>)
    requires Later(l, m) && m.input == rest && |l.input| == n + |rest|
    ensures LeavesAt(l, m, n, rest)
  {
    assert |l.received + l.input| == |m.received + m.input|;
  }

  lemma {:induction false} SendReads(s: State, r: Reply)
    ensures Send(s, r).state.link.input == s.link.input
  {
    hide EncodeReply;
  }

  lemma {:induction false} DevListReads(s: State, c: Command, rest: seq<byte>)
    requires c.OpDevList? && WellFormed(c) && s.link.input == CommandBody(c) + rest
    requires ServeDevList(s).flow.Continue?
    ensures ServeDevList(s).state.link.input == rest
  {
    hide Send;
    assert s.link.input[4..] == rest;
    SendReads(Read(s, 4).state, RetDevList(s.tables.devlist));
  }

  lemma {:induction false} AttachReads(s: State)
    ensures Attach(s).state.link.input == s.link.input
  {
    hide Call;
    CallLink(s, BootReset);
    var s1 := Call(s, BootReset).state;
    CallLink(s1, SetupStage(ADDRESS_SETUP));
    var s2 := Call(s1, SetupStage(ADDRESS_SETUP)).state;
    CallLink(SetRetired(s2, 0, Acknowledged), InDone(0));
  }

  lemma {:induction false} ImportReads(s: State, c: Command, rest: seq<byte>)
    requires c.OpImport? && WellFormed(c) && s.link.input == CommandBody(c) + rest
    requires ServeImport(s).flow.Continue?
    ensures ServeImport(s).state.link.input == rest
  {
    hide Send, Attach;
    var s1 := Read(s, 4).state;
    assert s1.link.input == c.busId + rest;
    var s2 := Read(s1, 32).state;
    assert s2.link.input == rest;
    var reply := RetImport(Zeros(4) + s2.tables.path + s1.link.input[..32] + s2.tables.device);
    SendReads(s2, reply);
    AttachReads(Send(s2, reply).state);
  }

  lemma {:induction false} UnlinkReads(s: State, c: Command, rest: seq<byte>)
    requires c.CmdUnlink? && s.link.input == CommandBody(c) + rest
    requires ServeUnlink(s).flow.Continue?
    ensures ServeUnlink(s).state.link.input == rest
  {
    hide Send, DecodeUnlink, UnlinkStatus, EncodeUnlink;
    assert s.link.input[BODY_BYTES..] == rest;
    var s1 := Read(s, BODY_BYTES).state;
    var u := DecodeUnlink(s.link.input[..BODY_BYTES]);
    SendReads(s1, RetUnlink(u.seqNum, UnlinkStatus(s1.ports, u.target)));
  }

  /** Every byte of a submit and its payload is consumed, whether it was answered at once, parked,
      refused, or drained on a halted endpoint. */
  lemma {:induction false} SubmitReads(s: State, c: Command, rest: seq<byte>)
    requires Inv(s) && AtHead(s)
    requires c.CmdSubmit? && WellFormed(c) && s.link.input == CommandBody(c) + rest
    requires ServeSubmit(s).flow.Continue?
    ensures ServeSubmit(s).state.link.input == rest
  {
    hide Inv, Flushed, Transfer, DecodeSubmit, EncodeSubmit;
    assert s.link.input[..BODY_BYTES] == EncodeSubmit(c.body);
    SubmitRoundTrip(c.body);
    var r := c.body;
    ReadKeeps(s, BODY_BYTES);
    var s1 := Read(s, BODY_BYTES).state;
    assert s1.link.input == c.payload + rest;
    BegunKeeps(s1, r);
    var s2 := Begun(s1, r);
    var reply := TransferOutcome(s2, r);
    if r.direction == 0 {
      assert s2.link.input[r.length..] == rest;
    } else {
      assert s2.link.input == rest && s2.link.input[0..] == rest;
    }
  }

  lemma {:induction false} SubmitConsumes(s: State, c: Command, rest: seq<byte>)
    requires c.CmdSubmit? && WellFormed(c) && s.link.input == CommandBody(c) + rest
    ensures ServeSubmit(s).state.link.consumed in {s.link.consumed, s.link.consumed + [c.body]}
    ensures ServeSubmit(s).flow.Continue? ==> ServeSubmit(s).state.link.consumed == s.link.consumed + [c.body]
  {
    hide Transfer, DecodeSubmit, EncodeSubmit;
    assert s.link.input[..BODY_BYTES] == EncodeSubmit(c.body);
    SubmitRoundTrip(c.body);
    SubmitLater(s);
    var s2 := Begun(Read(s, BODY_BYTES).state, c.body);
    if Acceptable(s2, c.body) {
      TransferWithin(s2, c.body);
    }
  }

  /** One command of a well-formed stream: the dispatcher recognises it, consumes exactly its bytes
      and records exactly its submit. */
  lemma {:induction false} DispatchReads(s: State, c: Command, rest: seq<byte>)
    requires Inv(s) && AtHead(s)
    requires WellFormed(c) && s.link.input == EncodeCommand(c) + rest
    ensures
      var t := Dispatch(s).state;
      && t.link.consumed in {s.link.consumed, s.link.consumed + SubmitOf(c)}
      && (Dispatch(s).flow.Continue? ==>
            && t.link.consumed == s.link.consumed + SubmitOf(c)
            && LeavesAt(s.link, t.link, |EncodeCommand(c)|, rest))
  {
    hide Inv, Flushed, ServeDevList, ServeImport, ServeSubmit, ServeUnlink, CommandBody;
    var s0 := s.(link := s.link.(heads := s.link.heads + [|s.link.received|]));
    BookkeepingKeeps(s, s0.link.heads, s.link.polls);
    ReadKeeps(s0, 4);
    var s1 := Read(s0, 4).state;
    assert s.link.input == CommandWord(c) + (CommandBody(c) + rest);
    assert s.link.input[..4] == CommandWord(c) && s1.link.input == CommandBody(c) + rest;
    DevListWithin(s1);
    ImportWithin(s1);
    UnlinkWithin(s1);
    var run := Dispatch(s);
    match c {
      case OpDevList(v, st) =>
        if run.flow.Continue? { DevListReads(s1, c, rest); }
      case OpImport(v, st, bus) =>
        if run.flow.Continue? { ImportReads(s1, c, rest); }
      case CmdSubmit(r, data) =>
        SubmitConsumes(s1, c, rest);
        if run.flow.Continue? { SubmitReads(s1, c, rest); }
      case CmdUnlink(u) =>
        if run.flow.Continue? { UnlinkReads(s1, c, rest); }
    }
    if run.flow.Continue? {
      DispatchLater(s);
      CountedRead(s.link, run.state.link, |EncodeCommand(c)|, rest);
    }
  }

  // -------------------------------------------------------------- whole runs

  /** Between commands the input stays where it is. */
  lemma {:induction false} IdleReads(s: State)
    ensures
      var m := DeviceLoop(s).state.link;
      m.input == s.link.input && m.received == s.link.received && m.heads == s.link.heads && m.consumed == s.link.consumed
    ensures
      var m := CompleteInterrupts(s).state.link;
      m.input == s.link.input && m.received == s.link.received && m.heads == s.link.heads && m.consumed == s.link.consumed
  {
    hide DeviceLoop, CompleteFrom;
    DeviceLoopLink(s);
    CompleteFromReads(s, 1);
  }

  lemma {:induction false} CompleteFromReads(s: State, ep: nat)
    requires ep <= 4
    ensures
      var m := CompleteFrom(s, ep).state.link;
      m.input == s.link.input && m.received == s.link.received && m.heads == s.link.heads && m.consumed == s.link.consumed
    decreases 4 - ep
  {
    hide CompleteOne;
    if ep < 4 {
      CompleteOneReads(s, ep);
      var r := CompleteOne(s, ep);
      if r.flow.Continue? {
        CompleteFromReads(r.state, ep + 1);
      }
    }
  }

  lemma {:induction false} CompleteOneReads(s: State, ep: Ep)
    ensures
      var m := CompleteOne(s, ep).state.link;
      m.input == s.link.input && m.received == s.link.received && m.heads == s.link.heads && m.consumed == s.link.consumed
  {
    hide Call, EncodeReply;
    var p := s.ports[ep];
    if p.endpoint.hostReady && p.pending && |p.packet| <= p.endpoint.intrIn.length {
      var s1 := Send(s, RetSubmit(p.endpoint.intrIn, STATUS_OK, |p.packet|, p.packet)).state;
      CallLink(SetPort(s1, ep, Retired(Unparked(p), Shipped)), InDone(ep));
    }
  }

  /** The dispatcher at the end of the stream: it reads nothing and gives up. */
  lemma {:induction false} DispatchAtEnd(s: State)
    requires s.link.input == []
    ensures Dispatch(s).flow.Fatal? && Dispatch(s).state.link.consumed == s.link.consumed
  {}

  /** For any list of well-formed commands, sent back to back, each dispatch of a run starts at the
      first byte of the next command, and the submits served are those of the list, in order. */
  lemma {:induction false} InputStaysInSync(s: State, cs: seq<Command>)
    requires Inv(s) && AtHead(s)
    requires AllWellFormed(cs) && s.link.input == EncodeCommands(cs)
    ensures Serve(s).state.link.heads <= s.link.heads + Offsets(|s.link.received|, cs)
    ensures Serve(s).state.link.consumed <= s.link.consumed + SubmitsOf(cs)
    decreases |s.script|
  {
    hide Inv, Flushed, DeviceLoop, CompleteInterrupts, Dispatch, Quiet, EncodeCommand;
    DeviceLoopKeeps(s);
    DeviceLoopLink(s);
    StillHead(s, DeviceLoop(s).state);
    IdleReads(s);
    var s1 := DeviceLoop(s);
    if s1.flow.Continue? {
      CompleteKeeps(s1.state);
      IdleReads(s1.state);
      var s2 := CompleteInterrupts(s1.state);
      if s2.flow.Continue? && s2.state.link.polls != [] {
        var s3 := Polled(s2.state);
        BookkeepingKeeps(s2.state, s2.state.link.heads, s3.link.polls);
        if s2.state.link.polls[0].Nothing? {
          InputStaysInSync(s3, cs);
        } else if s2.state.link.polls[0].Ready? {
          DispatchKeeps(s3);
          DispatchLater(s3);
          if cs == [] {
            DispatchAtEnd(s3);
          } else {
            DispatchReads(s3, cs[0], EncodeCommands(cs[1..]));
            if Dispatch(s3).flow.Continue? {
              InputStaysInSync(Dispatch(s3).state, cs[1..]);
              SyncStep(s.link, Dispatch(s3).state.link, Serve(Dispatch(s3).state).state.link, cs);
            }
          }
        }
      }
    }
  }

  lemma {:induction false} SyncStep(l: Link, m: Link, n: Link, cs: seq<Command>)
    requires AllWellFormed(cs) && cs != []
    requires m.heads == l.heads + [|l.received|] && m.consumed == l.consumed + SubmitOf(cs[0])
    requires |m.received| == |l.received| + |EncodeCommand(cs[0])|
    requires n.heads <= m.heads + Offsets(|m.received|, cs[1..])
    requires n.consumed <= m.consumed + SubmitsOf(cs[1..])
    ensures n.heads <= l.heads + Offsets(|l.received|, cs)
    ensures n.consumed <= l.consumed + SubmitsOf(cs)
  {
    hide EncodeCommand, SubmitOf;
    PrefixAssoc(l.heads, [|l.received|], Offsets(|m.received|, cs[1..]));
    PrefixAssoc(l.consumed, SubmitOf(cs[0]), SubmitsOf(cs[1..]));
  }

  lemma {:induction false} PrefixAssoc<T>(a: seq<T>, b: seq<T>, c: seq<T>)
    ensures a + b + c == a + (b + c)
  {}
}
