/** What one request amounts to: how packets become a transfer and a transfer becomes packets, and
    what is left of the connection afterwards. */
module Transfers {
  import opened Bytes
  import opened Wire
  import opened Model
  import opened Adapter
  import opened Ledgers
  import opened Callbacks
  import opened Invariants
  import opened Traces

  // ------------------------------------------------- transfers and packets

  /** The packets one IN transfer takes from a stream: full packets up to and including the first
      short or empty one, or until the buffer is exactly full. A packet that would overrun the
      buffer is not taken. */
  function Assemble(ps: seq<seq<byte>>, capacity: nat, mps: nat): seq<seq<byte>> {
    if capacity == 0 || ps == [] || |ps[0]| > capacity then []
    else if |ps[0]| < mps then [ps[0]]
    else [ps[0]] + Assemble(ps[1..], capacity - |ps[0]|, mps)
  }

  /** The packets of one OUT transfer: all full but perhaps the last, none empty. */
  function Split(data: seq<byte>, mps: nat): (ps: seq<seq<byte>>)
    requires mps > 0
    ensures Flatten(ps) == data
    ensures forall i :: 0 <= i < |ps| ==> 0 < |ps[i]| <= mps
    ensures forall i :: 0 <= i < |ps| - 1 ==> |ps[i]| == mps
  {
    if data == [] then []
    else if |data| <= mps then
      assert [data][..0] == [];
      [data]
    else
      var rest := Split(data[mps..], mps);
      FlattenAppend([data[..mps]], rest);
      FlattenOne(data[..mps]);
      assert data == data[..mps] + data[mps..];
      [data[..mps]] + rest
  }

  lemma {:induction false} FlattenOne(p: seq<byte>)
    ensures Flatten([p]) == p
  {
    assert [p][..0] == [];
  }

  /** A transfer that ended by itself: these packets and no more make it, whatever follows. */
  predicate Complete(ps: seq<seq<byte>>, capacity: nat, mps: nat) {
    if capacity == 0 then ps == []
    else ps != [] && |ps[0]| <= capacity && if |ps[0]| < mps then |ps| == 1 else Complete(ps[1..], capacity - |ps[0]|, mps)
  }

  /** A transfer that still waited for packets when it was cut short. */
  predicate Unfinished(ps: seq<seq<byte>>, capacity: nat, mps: nat) {
    0 < capacity && (ps != [] ==> mps <= |ps[0]| <= capacity && Unfinished(ps[1..], capacity - |ps[0]|, mps))
  }

  /** What "complete" means: no larger or smaller run of packets would have been taken. */
  lemma {:induction false} CompleteAssembles(ps: seq<seq<byte>>, more: seq<seq<byte>>, capacity: nat, mps: nat)
    requires Complete(ps, capacity, mps)
    ensures Assemble(ps + more, capacity, mps) == ps
    decreases |ps|
  {
    if capacity != 0 {
      assert (ps + more)[0] == ps[0] && (ps + more)[1..] == ps[1..] + more;
      if |ps[0]| >= mps {
        CompleteAssembles(ps[1..], more, capacity - |ps[0]|, mps);
      }
    }
  }

  /** A cut-short transfer took everything there was. */
  lemma {:induction false} UnfinishedAssembles(ps: seq<seq<byte>>, capacity: nat, mps: nat)
    requires Unfinished(ps, capacity, mps)
    ensures Assemble(ps, capacity, mps) == ps && |Flatten(ps)| < capacity
    decreases |ps|
  {
    if ps != [] {
      UnfinishedAssembles(ps[1..], capacity - |ps[0]|, mps);
      assert ps == [ps[0]] + ps[1..];
      FlattenAppend([ps[0]], ps[1..]);
      FlattenOne(ps[0]);
    }
  }

  /** USB 2.0 sections 5.5.3, 5.7.3 and 5.8.3: every packet but the last is full, and the last one is
      short or fills the buffer exactly. */
  lemma {:induction false} CompleteShape(ps: seq<seq<byte>>, capacity: nat, mps: nat)
    requires Complete(ps, capacity, mps) && forall i :: 0 <= i < |ps| ==> |ps[i]| <= mps
    ensures forall i :: 0 <= i < |ps| - 1 ==> |ps[i]| == mps
    ensures |Flatten(ps)| <= capacity
    ensures |Flatten(ps)| == capacity || (ps != [] && |ps[|ps| - 1]| < mps)
    decreases |ps|
  {
    if capacity != 0 {
      assert ps == [ps[0]] + ps[1..];
      FlattenAppend([ps[0]], ps[1..]);
      FlattenOne(ps[0]);
      if |ps[0]| >= mps {
        CompleteShape(ps[1..], capacity - |ps[0]|, mps);
      } else {
        assert ps[1..] == [];
      }
    }
  }

  /** The packets of a payload as a sender frames them: an empty packet closes a payload that ends
      on a packet boundary. */
  function Terminated(data: seq<byte>, mps: nat): seq<seq<byte>>
    requires mps > 0
  {
    Split(data, mps) + if |data| % mps == 0 then [[]] else []
  }

  lemma {:induction false} SplitStep(data: seq<byte>, mps: nat)
    requires 0 < mps <= |data|
    ensures Split(data, mps) == [data[..mps]] + Split(data[mps..], mps)
  {
    hide Flatten;
    if |data| == mps {
      assert data[..mps] == data && data[mps..] == [];
    }
  }

  lemma {:induction false} TerminatedStep(data: seq<byte>, mps: nat)
    requires 0 < mps <= |data|
    ensures Terminated(data, mps) == [data[..mps]] + Terminated(data[mps..], mps)
  {
    hide Split;
    SplitStep(data, mps);
    ModStep(|data|, mps);
  }

  lemma {:induction false} TerminatedShort(data: seq<byte>, mps: nat)
    requires |data| < mps
    ensures Terminated(data, mps) == [data]
  {
    hide Flatten;
    assert |data| % mps == |data|;
  }

  /** Gathering is the inverse of splitting. */
  lemma {:induction false} SplitGatherInverse(data: seq<byte>, more: seq<seq<byte>>, capacity: nat, mps: nat)
    requires mps > 0 && |data| <= capacity
    ensures Flatten(Assemble(Terminated(data, mps) + more, capacity, mps)) == data
    decreases |data|
  {
    hide Flatten, Terminated;
    var ps := Terminated(data, mps) + more;
    if capacity == 0 {
      FlattenNothing();
    } else if |data| < mps {
      TerminatedShort(data, mps);
      FlattenOne(data);
    } else {
      var head, tail := data[..mps], data[mps..];
      TerminatedStep(data, mps);
      assert ps[0] == head && ps[1..] == Terminated(tail, mps) + more;
      SplitGatherInverse(tail, more, capacity - mps, mps);
      var rest := Assemble(ps[1..], capacity - mps, mps);
      FlattenAppend([head], rest);
      FlattenOne(head);
      assert data == head + tail;
    }
  }

  lemma {:induction false} FlattenNothing()
    ensures Flatten([]) == []
  {}

  // ---------------------------------------------------- the device contract

  /** The device does not close the endpoint in any of these upcalls. */
  predicate KeepsOpen(used: seq<seq<Callback>>, ep: Ep) {
    forall i :: 0 <= i < |used| ==> NoClose(used[i], ep)
  }

  predicate NoClose(cs: seq<Callback>, ep: Ep) {
    forall j :: 0 <= j < |cs| ==> !(cs[j].Close? && cs[j].ep == ep)
  }

  /** The endpoint is open, and the device does not close it before the run has come to `z`. */
  ghost predicate OpenUntil(s: State, z: State, ep: Ep) {
    s.ports[ep].endpoint.mps == PacketBytes(ep) && KeepsOpen(Used(s, z), ep)
  }

  lemma {:induction false} ApplyOpen(s: State, c: Callback, ep: Ep)
    requires s.ports[ep].endpoint.mps == PacketBytes(ep) && !(c.Close? && c.ep == ep)
    ensures Apply(s, c).state.ports[ep].endpoint.mps == PacketBytes(ep)
  {
    hide PacketBytes;
  }

  lemma {:induction false} ApplyAllOpen(s: State, cs: seq<Callback>, ep: Ep)
    requires s.ports[ep].endpoint.mps == PacketBytes(ep) && NoClose(cs, ep)
    ensures ApplyAll(s, cs).state.ports[ep].endpoint.mps == PacketBytes(ep)
    decreases |cs|
  {
    hide Apply, PacketBytes;
    if cs != [] {
      ApplyOpen(s, cs[0], ep);
      var r := Apply(s, cs[0]);
      if r.flow.Continue? {
        ApplyAllOpen(r.state, cs[1..], ep);
      }
    }
  }

  lemma {:induction false} CallOpen(s: State, u: Upcall, z: State, ep: Ep)
    requires u.InDone? ==> !s.ports[u.ep].pending
    requires OpenUntil(s, z, ep) && |z.script| <= |Call(s, u).state.script|
    ensures OpenUntil(Call(s, u).state, z, ep)
  {
    hide PacketBytes, NoClose;
    if s.script != [] {
      var t := Noted(s, u).(script := s.script[1..]);
      ApplyAllScript(t, s.script[0]);
      assert Used(s, z)[0] == s.script[0];
      ApplyAllOpen(t, s.script[0], ep);
      var used := Used(Call(s, u).state, z);
      forall i | 0 <= i < |used| ensures NoClose(used[i], ep) {
        assert used[i] == Used(s, z)[i + 1];
      }
    }
  }

  lemma {:induction false} DeviceLoopOpen(s: State, z: State, ep: Ep)
    requires OpenUntil(s, z, ep) && |z.script| <= |DeviceLoop(s).state.script|
    ensures OpenUntil(DeviceLoop(s).state, z, ep)
  {
    hide Call, KeepsOpen;
    if s.timer.Some? {
      if Expired(s.timer.value, Now(s)) {
        CallOpen(Disarmed(s), TimerFired(s.timer.value.callback), z, ep);
      }
    }
    if TimerStep(s).flow.Continue? {
      CallOpen(TimerStep(s).state, Loop, z, ep);
    }
  }

  // ------------------------------------------------------- one turn, IN data

  /** The ports after `ins` were taken from one endpoint and shipped, and `outs` were handed to the
      device on it: nothing else went either way. */
  ghost predicate Moved(s: State, t: State, ep: Ep, ins: seq<seq<byte>>, outs: seq<seq<byte>>) {
    forall e: Ep ::
      && ShippedOf(t.ports[e].ledger) == ShippedOf(s.ports[e].ledger) + (if e == ep then ins else [])
      && t.ports[e].ledger.outs == s.ports[e].ledger.outs + (if e == ep then outs else [])
      && s.ports[e].ledger.wrote <= t.ports[e].ledger.wrote && s.ports[e].ledger.fates <= t.ports[e].ledger.fates
  }

  lemma {:induction false} MovedTrans(s: State, t: State, u: State, ep: Ep,
                                      ins: seq<seq<byte>>, ins': seq<seq<byte>>, outs: seq<seq<byte>>, outs': seq<seq<byte>>)
    requires Moved(s, t, ep, ins, outs) && Moved(t, u, ep, ins', outs')
    ensures Moved(s, u, ep, ins + ins', outs + outs')
  {
    hide ShippedOf;
  }

  lemma {:induction false} MovedNothing(s: State, t: State, ep: Ep)
    requires QuietPorts(s.ports, t.ports)
    ensures Moved(s, t, ep, [], [])
  {
    hide ShippedOf;
    forall e: Ep
      ensures ShippedOf(t.ports[e].ledger) == ShippedOf(s.ports[e].ledger) + []
      ensures t.ports[e].ledger.outs == s.ports[e].ledger.outs + []
      ensures s.ports[e].ledger.wrote <= t.ports[e].ledger.wrote && s.ports[e].ledger.fates <= t.ports[e].ledger.fates
    {
      assert QuietPort(s.ports[e], t.ports[e]);
    }
  }

  lemma {:induction false} MovedSame(s: State, t: State, ep: Ep)
    requires s.ports == t.ports
    ensures Moved(s, t, ep, [], [])
  {
    hide ShippedOf;
  }

  /** Quiet steps before and after change nothing of what was moved. */
  lemma {:induction false} MovedQuietly(s: State, t: State, u: State, ep: Ep, ins: seq<seq<byte>>, outs: seq<seq<byte>>)
    requires Moved(s, t, ep, ins, outs) && Moved(t, u, ep, [], [])
    ensures Moved(s, u, ep, ins, outs)
  {
    hide Moved;
    MovedTrans(s, t, u, ep, ins, [], outs, []);
    assert ins + [] == ins && outs + [] == outs;
  }

  lemma {:induction false} MovedLater(s: State, t: State, u: State, ep: Ep, ins: seq<seq<byte>>, outs: seq<seq<byte>>)
    requires Moved(s, t, ep, [], []) && Moved(t, u, ep, ins, outs)
    ensures Moved(s, u, ep, ins, outs)
  {
    hide Moved;
    MovedTrans(s, t, u, ep, [], ins, [], outs);
    assert [] + ins == ins && [] + outs == outs;
  }

  lemma {:induction false} TakenMoves(s: State, r: Submit)
    requires Serving(s, r) && s.ports[r.ep].pending
    requires |s.link.gathered| + |s.ports[r.ep].packet| <= TX_BUFFER_BYTES
    ensures Moved(s, Call(Taken(s, r.ep), InDone(r.ep)).state, r.ep, [s.ports[r.ep].packet], [])
  {
    hide PortOk, PortsOk, LinkInv, EncodeReplies, Call, QuietPorts, ShippedOf;
    var t0 := Taken(s, r.ep);
    var q := Completed(s.ports[r.ep], Shipped);
    assert Noted(t0, InDone(r.ep)).ports == s.ports[r.ep := q];
    PortsOkAt(s.ports, r.ep);
    CompletedOk(r.ep, s.ports[r.ep], Shipped);
    SetPortOk(s.ports, r.ep, q);
    TakenLink(s.ports, s.link, r.ep);
    CallKeeps(t0, InDone(r.ep));
    assert Moved(s, Noted(t0, InDone(r.ep)), r.ep, [s.ports[r.ep].packet], []);
    MovedNothing(Noted(t0, InDone(r.ep)), Call(t0, InDone(r.ep)).state, r.ep);
    MovedQuietly(s, Noted(t0, InDone(r.ep)), Call(t0, InDone(r.ep)).state, r.ep, [s.ports[r.ep].packet], []);
  }

  lemma {:induction false} OutMoves(s: State, ep: Ep, bytes: seq<byte>)
    requires Inv(s)
    ensures Moved(s, Call(s, OutData(ep, bytes)).state, ep, [], [bytes])
  {
    hide Inv, Call, QuietPorts, ShippedOf;
    var t := Noted(s, OutData(ep, bytes));
    ShippedSame(s.ports[ep].ledger, t.ports[ep].ledger);
    OutCallQuiet(s, ep, bytes);
    assert Moved(s, t, ep, [], [bytes]);
    MovedNothing(t, Call(s, OutData(ep, bytes)).state, ep);
    MovedQuietly(s, t, Call(s, OutData(ep, bytes)).state, ep, [], [bytes]);
  }

  lemma {:induction false} DeviceLoopMoves(s: State, ep: Ep)
    requires Inv(s)
    ensures Moved(s, DeviceLoop(s).state, ep, [], [])
  {
    hide Inv, DeviceLoop, QuietPorts, SameWaiting;
    DeviceLoopKeeps(s);
    MovedNothing(s, DeviceLoop(s).state, ep);
  }

  lemma {:induction false} OpenTicked(s: State, z: State, ep: Ep)
    ensures OpenUntil(Ticked(s), z, ep) == OpenUntil(s, z, ep)
    ensures OpenUntil(s, z, ep) ==> s.ports[ep].endpoint.mps == PacketBytes(ep)
  {}

  lemma {:induction false} TakenOpen(s: State, z: State, ep: Ep)
    requires Inv(s) && |z.script| <= |Call(Taken(s, ep), InDone(ep)).state.script|
    ensures |s.ports[ep].packet| <= PacketBytes(ep)
    ensures OpenUntil(s, z, ep) ==> OpenUntil(Call(Taken(s, ep), InDone(ep)).state, z, ep)
    ensures OpenUntil(s, z, ep) ==> Call(Taken(s, ep), InDone(ep)).state.ports[ep].endpoint.mps == PacketBytes(ep)
  {
    hide LinkInv, Call, KeepsOpen;
    PortsOkAt(s.ports, ep);
    if OpenUntil(s, z, ep) {
      CallOpen(Taken(s, ep), InDone(ep), z, ep);
    }
  }

  /** What one turn of the IN loop did: it took at most one packet, and ends the transfer exactly when
      that packet is short, the endpoint halts, or the time is up. The endpoint is open until `z`. */
  ghost predicate TurnTook(s: State, t: State, z: State, status: Option<uint32>, ep: Ep, capacity: nat, took: seq<seq<byte>>) {
    && |took| <= 1 && Moved(s, t, ep, took, [])
    && t.link == s.link.(cancelled := t.link.cancelled, gathered := s.link.gathered + Flatten(took))
    && |s.link.gathered + Flatten(took)| <= capacity
    && (status.Some? && status.value != STATUS_OK ==> took == [])
    && (took == [] ==> DeviceLoop(s).state.ports[ep].haltedIn || !DeviceLoop(s).state.ports[ep].pending)
    && (OpenUntil(s, z, ep) ==>
          && OpenUntil(t, z, ep)
          && (forall p :: p in took ==> |p| <= PacketBytes(ep))
          && (status == Some(STATUS_OK) <==> took != [] && |took[0]| < PacketBytes(ep)))
  }

  lemma {:induction false} TurnEffect(s: State, z: State, r: Submit, capacity: nat, started: uint32) returns (took: seq<seq<byte>>)
    requires Serving(s, r) && |s.link.gathered| <= capacity <= TX_BUFFER_BYTES
    requires GatherTurn(s, r, capacity, started).run.flow.Continue?
    requires |z.script| <= |GatherTurn(s, r, capacity, started).run.state.script|
    ensures
      var turn := GatherTurn(s, r, capacity, started);
      TurnTook(s, turn.run.state, z, turn.status, r.ep, capacity, took)
  {
    hide Inv, Flushed, Call, DeviceLoop, Moved, OpenUntil, PacketBytes;
    DeviceLoopServing(s, r);
    DeviceLoopMoves(s, r.ep);
    var d := DeviceLoop(s).state;
    if OpenUntil(s, z, r.ep) {
      DeviceLoopOpen(s, z, r.ep);
    }
    var p := d.ports[r.ep];
    if p.haltedIn || !p.pending {
      took := [];
      FlattenNothing();
      assert s.link.gathered + [] == s.link.gathered;
      MovedSame(d, Ticked(d), r.ep);
      MovedQuietly(s, d, Ticked(d), r.ep, [], []);
      OpenTicked(d, z, r.ep);
    } else {
      took := [p.packet];
      FlattenOne(p.packet);
      TakenKeeps(d, r);
      TakenMoves(d, r);
      MovedLater(s, d, Call(Taken(d, r.ep), InDone(r.ep)).state, r.ep, took, []);
      TakenOpen(d, z, r.ep);
    }
  }

  // -------------------------------------------------------- the whole transfer

  /** The connection after the reply to the request being served: only the reply was added. */
  ghost predicate AnsweredBy(l: Link, m: Link, reply: Reply) {
    && reply.RetSubmit?
    && m == l.(cancelled := m.cancelled, budget := m.budget, sent := m.sent,
               replies := l.replies + [reply], current := None, gathered := [])
  }

  lemma {:induction false} AnswerEffect(s: State, r: Submit, status: uint32, actual: uint32, payload: seq<byte>)
    requires Answer(s, r, status, actual, payload).flow.Continue?
    ensures
      var t := Answer(s, r, status, actual, payload).state;
      AnsweredBy(s.link, t.link, RetSubmit(r, status, actual, payload)) && t.ports == s.ports && t.script == s.script
  {
    hide EncodeReply;
  }

  /** The status stage of a control IN is exactly one empty OUT packet. */
  function StatusStage(ep: Ep): seq<seq<byte>> {
    if ep == 0 then [[]] else []
  }

  lemma {:induction false} FinishInEffect(s: State, r: Submit, status: uint32)
    requires Serving(s, r) && r.direction == 1 && |s.link.gathered| <= Capacity(r)
    requires FinishIn(s, r, status).flow.Continue?
    ensures
      var t := FinishIn(s, r, status).state;
      && AnsweredBy(s.link, t.link, RetSubmit(r, status, |s.link.gathered|, s.link.gathered))
      && Moved(s, t, r.ep, [], StatusStage(r.ep))
  {
    hide Inv, Flushed, Call, Moved, Answer;
    OutCallKeeps(s, 0, []);
    OutMoves(s, 0, []);
    MovedSame(s, s, r.ep);
    var s1 := if r.ep == 0 then Call(s, OutData(0, [])) else Run(s, Continue);
    AnswerEffect(s1.state, r, status, |s.link.gathered|, s.link.gathered);
    MovedSame(s1.state, FinishIn(s, r, status).state, r.ep);
    MovedQuietly(s, s1.state, FinishIn(s, r, status).state, r.ep, [], StatusStage(r.ep));
  }

  /** The outcome of an IN data stage that took these packets: they are the payload of the reply, and
      unless the device closed the endpoint they are a complete run of packets, or a run that was
      still open when it was cut short. */
  ghost predicate GatheredAs(s: State, t: State, r: Submit, capacity: nat, status: uint32, took: seq<seq<byte>>)
    requires r.ep < 4
  {
    var payload := s.link.gathered + Flatten(took);
    && status in {STATUS_OK, NEG_EPIPE, NEG_ETIMEDOUT}
    && |s.link.gathered| <= |payload| <= capacity < TWO_32
    && AnsweredBy(s.link, t.link, RetSubmit(r, status, |payload|, payload))
    && Moved(s, t, r.ep, took, StatusStage(r.ep))
    && (OpenUntil(s, t, r.ep) ==>
          && (forall p :: p in took ==> |p| <= PacketBytes(r.ep))
          && (status == STATUS_OK ==> Complete(took, capacity - |s.link.gathered|, PacketBytes(r.ep)))
          && (status != STATUS_OK ==> Unfinished(took, capacity - |s.link.gathered|, PacketBytes(r.ep))))
  }

  lemma {:induction false} LastTurn(s: State, m: State, t: State, r: Submit, capacity: nat, status: uint32, first: seq<seq<byte>>)
    requires r.ep < 4 && |s.link.gathered| < capacity < TWO_32
    requires status in {STATUS_OK, NEG_EPIPE, NEG_ETIMEDOUT}
    requires TurnTook(s, m, t, Some(status), r.ep, capacity, first)
    requires AnsweredBy(m.link, t.link, RetSubmit(r, status, |m.link.gathered|, m.link.gathered))
    requires Moved(m, t, r.ep, [], StatusStage(r.ep))
    ensures GatheredAs(s, t, r, capacity, status, first)
  {
    hide Moved, OpenUntil, PacketBytes, StatusStage, Flatten;
    FlattenAtMostOne(first);
    MovedTrans(s, m, t, r.ep, first, [], [], StatusStage(r.ep));
    assert first + [] == first && [] + StatusStage(r.ep) == StatusStage(r.ep);
  }

  lemma {:induction false} AnotherTurn(s: State, m: State, t: State, r: Submit, capacity: nat, status: uint32,
                                       first: seq<seq<byte>>, rest: seq<seq<byte>>)
    requires r.ep < 4 && |s.link.gathered| < capacity
    requires TurnTook(s, m, t, None, r.ep, capacity, first)
    requires GatheredAs(m, t, r, capacity, status, rest)
    ensures GatheredAs(s, t, r, capacity, status, first + rest)
  {
    hide Moved, OpenUntil, PacketBytes, StatusStage, Flatten, Complete, Unfinished;
    var g := s.link.gathered;
    FlattenAppend(first, rest);
    assert g + Flatten(first + rest) == (g + Flatten(first)) + Flatten(rest);
    MovedTrans(s, m, t, r.ep, first, rest, [], StatusStage(r.ep));
    assert [] + StatusStage(r.ep) == StatusStage(r.ep);
    FlattenAtMostOne(first);
    if OpenUntil(s, t, r.ep) {
      if first != [] {
        assert first[0] in first;
        assert first == [first[0]];
      }
      ShapeStep(first, rest, capacity - |g|, PacketBytes(r.ep));
    }
  }

  lemma {:induction false} NoTurn(s: State, t: State, r: Submit, capacity: nat)
    requires r.ep < 4 && |s.link.gathered| == capacity < TWO_32
    requires AnsweredBy(s.link, t.link, RetSubmit(r, STATUS_OK, |s.link.gathered|, s.link.gathered))
    requires Moved(s, t, r.ep, [], StatusStage(r.ep))
    ensures GatheredAs(s, t, r, capacity, STATUS_OK, [])
  {
    hide Moved, StatusStage, OpenUntil;
    FlattenNothing();
    assert s.link.gathered + [] == s.link.gathered;
  }

  /** The IN loop refines Assemble: what it takes from the endpoint is what it answers with; a
      successful transfer is a complete run of packets, and one cut short by a halt or the timeout
      is answered with exactly the prefix gathered so far. */
  lemma {:induction false} GatherRefinesAssemble(s: State, r: Submit, capacity: nat, started: uint32)
    returns (status: uint32, took: seq<seq<byte>>)
    requires Serving(s, r) && r.direction == 1 && |s.link.gathered| <= capacity == Capacity(r)
    requires Gather(s, r, capacity, started).flow.Continue?
    ensures GatheredAs(s, Gather(s, r, capacity, started).state, r, capacity, status, took)
    decreases |s.script|
  {
    hide Inv, Flushed, FinishIn, GatherTurn, Moved, OpenUntil, TurnTook, GatheredAs, AnsweredBy;
    var t := Gather(s, r, capacity, started).state;
    if |s.link.gathered| >= capacity {
      status, took := STATUS_OK, [];
      FinishInEffect(s, r, STATUS_OK);
      NoTurn(s, t, r, capacity);
    } else {
      GatherTurnBounded(s, r, capacity, started);
      GatherTurnKeeps(s, r, capacity, started);
      var turn := GatherTurn(s, r, capacity, started);
      var m := turn.run.state;
      took := TurnEffect(s, t, r, capacity, started);
      if turn.status.Some? {
        status := turn.status.value;
        FinishInEffect(m, r, status);
        LastTurn(s, m, t, r, capacity, status, took);
      } else {
        var rest;
        status, rest := GatherRefinesAssemble(m, r, capacity, started);
        AnotherTurn(s, m, t, r, capacity, status, took, rest);
        took := took + rest;
      }
    }
  }

  lemma {:induction false} FlattenAtMostOne(ps: seq<seq<byte>>)
    requires |ps| <= 1
    ensures Flatten(ps) == if ps == [] then [] else ps[0]
  {
    if ps != [] {
      FlattenOne(ps[0]);
      assert ps == [ps[0]];
    }
  }

  /** A full packet, or none, in front of what comes later. */
  lemma {:induction false} ShapeStep(first: seq<seq<byte>>, rest: seq<seq<byte>>, capacity: nat, mps: nat)
    requires |first| <= 1 && 0 < capacity && |Flatten(first)| <= capacity
    requires forall p :: p in first ==> |p| == mps
    ensures Complete(rest, capacity - |Flatten(first)|, mps) ==> Complete(first + rest, capacity, mps)
    ensures Unfinished(rest, capacity - |Flatten(first)|, mps) ==> Unfinished(first + rest, capacity, mps)
  {
    FlattenAtMostOne(first);
    if first == [] {
      assert first + rest == rest;
    } else {
      assert first[0] in first;
      assert (first + rest)[0] == first[0] && (first + rest)[1..] == rest;
    }
  }

  // ---------------------------------------------------------------- OUT data

  lemma {:induction false} QuietPortAt(ps: Ports, qs: Ports, ep: Ep)
    requires QuietPorts(ps, qs)
    ensures QuietPort(ps[ep], qs[ep])
  {
    hide QuietPort;
  }

  lemma {:induction false} FinishOutEffect(s: State, r: Submit, halted: bool)
    requires Serving(s, r) && r.direction == 0 && s.link.gathered == [] && (halted ==> r.ep != 0)
    requires FinishOut(s, r, halted).flow.Continue?
    ensures
      var t := FinishOut(s, r, halted).state;
      && AnsweredBy(s.link, t.link, if halted then RetSubmit(r, NEG_EPIPE, 0, []) else RetSubmit(r, STATUS_OK, r.length, []))
      && Moved(s, t, r.ep, [], [])
  {
    hide Inv, Flushed, Call, Moved, Answer;
    MovedSame(s, s, r.ep);
    if r.ep == 0 && s.ports[0].pending {
      AcknowledgeKeeps(s, 0);
      AcknowledgeMoves(s);
    }
    var s1 := if r.ep == 0 && s.ports[0].pending
              then Call(SetRetired(s, 0, Acknowledged), InDone(0)) else Run(s, Continue);
    AnswerEffect(s1.state, r, if halted then NEG_EPIPE else STATUS_OK, if halted then 0 else r.length, []);
    MovedSame(s1.state, FinishOut(s, r, halted).state, r.ep);
    MovedQuietly(s, s1.state, FinishOut(s, r, halted).state, r.ep, [], []);
  }

  lemma {:induction false} AcknowledgeMoves(s: State)
    requires Inv(s) && s.ports[0].pending
    ensures Moved(s, Call(SetRetired(s, 0, Acknowledged), InDone(0)).state, 0, [], [])
  {
    hide LinkInv, PortOk, PortsOk, Call, QuietPorts, ShippedOf;
    var t0 := SetRetired(s, 0, Acknowledged);
    PortsOkAt(s.ports, 0);
    CompletedOk(0, s.ports[0], Acknowledged);
    assert Noted(t0, InDone(0)).ports == s.ports[0 := Completed(s.ports[0], Acknowledged)];
    AcknowledgeQuiet(s);
    assert Moved(s, Noted(t0, InDone(0)), 0, [], []);
    MovedNothing(Noted(t0, InDone(0)), Call(t0, InDone(0)).state, 0);
    MovedQuietly(s, Noted(t0, InDone(0)), Call(t0, InDone(0)).state, 0, [], []);
  }

  lemma {:induction false} AcknowledgeQuiet(s: State)
    requires Inv(s) && s.ports[0].pending
    ensures QuietPorts(Noted(SetRetired(s, 0, Acknowledged), InDone(0)).ports,
                       Call(SetRetired(s, 0, Acknowledged), InDone(0)).state.ports)
  {
    hide Inv, Call, QuietPorts, SameWaiting;
    AcknowledgeKeeps(s, 0);
  }

  /** One turn of the OUT loop. */
  lemma {:induction false} OutTurnEffect(s: State, z: State, r: Submit, halted: bool, count: nat)
    requires Serving(s, r) && s.link.gathered == []
    requires OutTurn(s, r, halted, count).flow.Continue? && |z.script| <= |OutTurn(s, r, halted, count).state.script|
    ensures
      var t := OutTurn(s, r, halted, count).state;
      var bytes := s.link.input[..count];
      && t.link == s.link.(cancelled := t.link.cancelled, input := s.link.input[count..], received := s.link.received + bytes)
      && Moved(s, t, r.ep, [], if halted then [] else [bytes])
      && (OpenUntil(s, z, r.ep) ==> OpenUntil(t, z, r.ep))
  {
    hide Inv, Flushed, Call, DeviceLoop, Moved, KeepsOpen;
    var bytes := s.link.input[..count];
    var s1 := Read(s, count).state;
    ReadKeeps(s, count);
    OutCallKeeps(s1, r.ep, bytes);
    OutMoves(s1, r.ep, bytes);
    MovedSame(s, s1, r.ep);
    MovedSame(s1, s1, r.ep);
    var s2 := if halted then s1 else Call(s1, OutData(r.ep, bytes)).state;
    var outs := if halted then [] else [bytes];
    if OpenUntil(s, z, r.ep) {
      if !halted {
        CallOpen(s1, OutData(r.ep, bytes), z, r.ep);
      }
      DeviceLoopOpen(s2, z, r.ep);
    }
    DeviceLoopKeeps(s2);
    DeviceLoopLink(s2);
    DeviceLoopMoves(s2, r.ep);
    MovedLater(s, s1, s2, r.ep, [], outs);
    MovedQuietly(s, s2, DeviceLoop(s2).state, r.ep, [], outs);
  }

  /** The OUT loop reads exactly the announced payload, halted or not. What the device gets is the
      payload cut into packets, or nothing when the endpoint is halted; the reply says which. */
  lemma {:induction false} OutLoopSplits(s: State, r: Submit, halted: bool, data: seq<byte>)
    returns (packets: seq<seq<byte>>)
    requires Serving(s, r) && r.direction == 0 && s.link.gathered == [] && (halted ==> r.ep != 0)
    requires |data| <= r.length && OutLoop(s, r, halted, data).flow.Continue?
    ensures r.length - |data| <= |s.link.input|
    ensures
      var n := r.length - |data|;
      var t := OutLoop(s, r, halted, data).state;
      && AnsweredBy(s.link.(input := s.link.input[n..], received := s.link.received + s.link.input[..n]), t.link,
                    if halted then RetSubmit(r, NEG_EPIPE, 0, []) else RetSubmit(r, STATUS_OK, r.length, []))
      && Moved(s, t, r.ep, [], packets)
      && Flatten(packets) == (if halted then [] else s.link.input[..n])
      && (OpenUntil(s, t, r.ep) && !halted ==> packets == Split(s.link.input[..n], PacketBytes(r.ep)))
    decreases |s.script|
  {
    hide Inv, Flushed, OutTurn, FinishOut, Moved, Flatten, KeepsOpen, Split;
    var n := r.length - |data|;
    if n == 0 {
      packets := [];
      FlattenNothing();
      FinishOutEffect(s, r, halted);
      SplitNothing(PacketBytes(r.ep));
      assert s.link.input[..0] == [];
      assert s.link.(input := s.link.input[0..], received := s.link.received + s.link.input[..0]) == s.link;
    } else {
      var count := OutCount(s, r, |data|);
      OutTurnKeeps(s, r, halted, count);
      var z := OutLoop(s, r, halted, data).state;
      OutTurnEffect(s, z, r, halted, count);
      var t := OutTurn(s, r, halted, count).state;
      var bytes := s.link.input[..count];
      var rest := OutLoopSplits(t, r, halted, data + bytes);
      var first := if halted then [] else [bytes];
      packets := first + rest;
      MovedTrans(s, t, OutLoop(s, r, halted, data).state, r.ep, [], [], first, rest);
      ghost var none: seq<seq<byte>> := [];
      assert none + none == none;
      FlattenAppend(first, rest);
      FlattenNothing();
      FlattenOne(bytes);
      TwoReads(s.link.input, s.link.received, count, n);
      if OpenUntil(s, z, r.ep) && !halted {
        SplitFirst(s.link.input[..n], count, PacketBytes(r.ep));
      }
    }
  }

  lemma {:induction false} SplitNothing(mps: nat)
    requires mps > 0
    ensures Split([], mps) == []
  {}

  /** Reading `count` bytes and then the rest of `n` is reading `n` bytes. */
  lemma {:induction false} TwoReads(input: seq<byte>, received: seq<byte>, count: nat, n: nat)
    requires count <= |input| && count <= n
    ensures n <= |input| <==> n - count <= |input[count..]|
    ensures n <= |input| ==>
              && input[..n] == input[..count] + input[count..][..n - count]
              && input[..n][..count] == input[..count]
              && input[..n][count..] == input[count..][..n - count]
              && input[n..] == input[count..][n - count..]
              && received + input[..n] == received + input[..count] + input[count..][..n - count]
  {}

  lemma {:induction false} SplitFirst(data: seq<byte>, count: nat, mps: nat)
    requires mps > 0 && data != [] && count == Min(|data|, mps)
    ensures Split(data, mps) == [data[..count]] + Split(data[count..], mps)
  {
    hide Flatten;
    if |data| <= mps {
      assert data[..count] == data && data[count..] == [];
    }
  }

  // ------------------------------------------------------------ control data

  lemma {:induction false} ShippedSuffix(w0: seq<seq<byte>>, w1: seq<seq<byte>>, f0: seq<Fate>, f1: seq<Fate>)
    requires |w0| == |f0| && |f1| <= |w1|
    ensures ShippedPackets(w0 + w1, f0 + f1) == ShippedPackets(w0, f0) + ShippedPackets(w1, f1)
    decreases |f1|
  {
    if f1 == [] {
      assert f0 + f1 == f0;
      ShippedGrow(w0, w1, f0);
    } else {
      var n := |f1| - 1;
      ShippedSuffix(w0, w1, f0, f1[..n]);
      assert f0 + f1 == (f0 + f1[..n]) + [f1[n]];
      assert f1 == f1[..n] + [f1[n]];
      ShippedSnoc(w0 + w1, f0 + f1[..n], f1[n]);
      ShippedSnoc(w1, f1[..n], f1[n]);
    }
  }

  lemma {:induction false} SetupMoves(s: State, setup: seq<byte>)
    requires Inv(s)
    ensures
      var s0 := SetRetired(s, 0, Discarded(NewSetup));
      Moved(s0, Call(s0, SetupStage(setup)).state, 0, [], [])
  {
    hide Inv, PortOk, Call, ShippedOf, QuietPorts, SameWaiting;
    InvAt(s, 0);
    RetiredOk(0, s.ports[0], Discarded(NewSetup));
    QuietSet(s, 0, Retired(s.ports[0], Discarded(NewSetup)));
    var s0 := SetRetired(s, 0, Discarded(NewSetup));
    PlainCallKeeps(s0, SetupStage(setup));
    MovedNothing(s0, Call(s0, SetupStage(setup)).state, 0);
  }

  // ------------------------------------------------------------ one request

  /** The connection once an accepted request's payload has been read. */
  function AfterPayload(l: Link, r: Submit): Link {
    var n := if r.direction == 0 && r.length <= |l.input| then r.length else 0;
    l.(input := l.input[n..], received := l.received + l.input[..n])
  }

  /** rust_submit answers an accepted request exactly once, or parks it: it parks exactly the IN
      requests to an open interrupt endpoint that holds neither a request nor a packet nor a halt,
      and refuses a second one with -EBUSY, leaving the first alone. Of the input it consumes the
      payload of an OUT request and nothing else, halted endpoint or not. */
  lemma {:induction false} TransferOutcome(s: State, r: Submit) returns (reply: Option<Reply>)
    requires Serving(s, r) && Acceptable(s, r) && s.link.gathered == []
    requires Transfer(s, r).flow.Continue?
    ensures
      var t := Transfer(s, r).state;
      var p := s.ports[r.ep];
      && (reply.None? <==> IsInterruptIn(s, r) && !p.endpoint.hostReady && !p.pending && !p.haltedIn)
      && (reply.None? ==> t == ParkedState(s, r))
      && (reply.Some? ==> AnsweredBy(AfterPayload(s.link, r), t.link, reply.value) && reply.value.req == r)
      && (r.direction == 0 ==> r.length <= |s.link.input|)
      && (IsInterruptIn(s, r) && p.endpoint.hostReady ==>
            t.ports == s.ports && reply == Some(RetSubmit(r, NEG_EBUSY, 0, [])))
  {
    hide Inv, Flushed, Call, OutLoop, Gather, Moved, OpenUntil, Flatten, Answer, Acceptable;
    assert r.ep < 4 && r.direction <= 1 && (r.direction == 0 ==> r.length <= TX_BUFFER_BYTES) by {
      AcceptableMeans(s, r);
    }
    NothingRead(s.link);
    var p := s.ports[r.ep];
    if IsInterruptIn(s, r) && p.endpoint.hostReady {
      AnswerEffect(s, r, NEG_EBUSY, 0, []);
      reply := Some(RetSubmit(r, NEG_EBUSY, 0, []));
    } else if IsInterruptIn(s, r) && !p.pending && !p.haltedIn {
      reply := None;
    } else {
      SetupKeeps(s, r.setup);
      var s1 := if r.ep == 0 then Call(SetRetired(s, 0, Discarded(NewSetup)), SetupStage(r.setup)).state else s;
      StillServing(s, s1, r);
      if r.direction == 0 {
        var halted := r.ep != 0 && s1.ports[r.ep].haltedOut;
        var packets := OutLoopSplits(s1, r, halted, []);
        reply := Some(if halted then RetSubmit(r, NEG_EPIPE, 0, []) else RetSubmit(r, STATUS_OK, r.length, []));
      } else {
        ReadingKeeps(s1);
        StillServing(s1, Ticked(s1), r);
        var status, took := GatherRefinesAssemble(Ticked(s1), r, Capacity(r), Now(s1));
        reply := Some(RetSubmit(r, status, |[] + Flatten(took)|, [] + Flatten(took)));
      }
    }
  }

  lemma {:induction false} AcceptableMeans(s: State, r: Submit)
    requires Acceptable(s, r)
    ensures r.ep < 4 && r.direction <= 1 && (r.direction == 0 ==> r.length <= TX_BUFFER_BYTES)
  {}

  lemma {:induction false} NothingRead(l: Link)
    ensures l.(input := l.input[0..], received := l.received + l.input[..0]) == l
  {
    assert l.input[0..] == l.input && l.received + l.input[..0] == l.received;
  }

  // ------------------------------------------------- a payload through the loop

  /** A transfer that was cut short holds a prefix of the payload it was fed. */
  lemma {:induction false} UnfinishedPrefix(took: seq<seq<byte>>, data: seq<byte>, more: seq<seq<byte>>, capacity: nat, mps: nat)
    requires mps > 0 && |data| <= capacity
    requires Unfinished(took, capacity, mps) && took <= Terminated(data, mps) + more
    ensures Flatten(took) <= data
    decreases |took|
  {
    hide Flatten, Terminated;
    if took == [] {
      FlattenNothing();
    } else {
      FirstIsFull(took, data, more, mps);
      var ps := Terminated(data, mps) + more;
      TerminatedStep(data, mps);
      assert ps[0] == data[..mps] && ps[1..] == Terminated(data[mps..], mps) + more;
      assert took[0] == ps[0] && took[1..] <= ps[1..];
      UnfinishedPrefix(took[1..], data[mps..], more, capacity - mps, mps);
      assert took == [took[0]] + took[1..];
      FlattenAppend([took[0]], took[1..]);
      FlattenOne(took[0]);
      assert data == data[..mps] + data[mps..];
    }
  }

  lemma {:induction false} FirstIsFull(took: seq<seq<byte>>, data: seq<byte>, more: seq<seq<byte>>, mps: nat)
    requires mps > 0 && took != [] && mps <= |took[0]| && took <= Terminated(data, mps) + more
    ensures mps <= |data|
  {
    hide Terminated;
    if |data| < mps {
      TerminatedShort(data, mps);
    }
  }

  /** The packets on offer to a transfer: the one staged when it starts, and those the device writes
      during it. */
  function Offered(s: State, t: State, ep: Ep): seq<seq<byte>> {
    var n := |s.ports[ep].ledger.fates|;
    if n <= |t.ports[ep].ledger.wrote| then t.ports[ep].ledger.wrote[n..] else []
  }

  /** If the device drops nothing, what the loop takes is the front of what it is offered. */
  lemma {:induction false} TookOffered(p: Port, q: Port, ep: Ep, took: seq<seq<byte>>)
    requires PortOk(ep, p) && PortOk(ep, q)
    requires Kept(p.ledger.fates, q.ledger.fates, false, false) && p.ledger.wrote <= q.ledger.wrote
    requires ShippedOf(q.ledger) == ShippedOf(p.ledger) + took
    ensures |p.ledger.fates| <= |q.ledger.wrote| && took <= q.ledger.wrote[|p.ledger.fates|..]
  {
    hide ShippedPackets;
    var f, g, w := p.ledger.fates, q.ledger.fates, q.ledger.wrote;
    var n := |f|;
    assert g == f + g[n..] && w == w[..n] + w[n..];
    ShippedSuffix(w[..n], w[n..], f, g[n..]);
    ShippedGrow(w[..n], p.ledger.wrote[n..], f);
    assert p.ledger.wrote == w[..n] + p.ledger.wrote[n..];
    AllShipped(w[n..], g[n..]);
    var before := ShippedOf(p.ledger);
    assert took == (before + took)[|before|..] == ShippedPackets(w[n..], g[n..]);
  }

  /** Split and gather are inverse through the running loop: when the device offers the packets of a
      payload that fits (and perhaps more after them, or not yet all of them), a successful reply
      carries exactly that payload, and any other reply a prefix of it. */
  lemma {:induction false} GatherDelivers(s: State, r: Submit, started: uint32, data: seq<byte>, more: seq<seq<byte>>)
    returns (reply: Reply)
    requires Serving(s, r) && r.direction == 1 && s.link.gathered == [] && |data| <= r.length && |data| <= 4096
    requires Gather(s, r, Capacity(r), started).flow.Continue?
    requires
      var t := Gather(s, r, Capacity(r), started).state;
      && OpenUntil(s, t, r.ep) && NoDrops(Used(s, t), r.ep)
      && Offered(s, t, r.ep) <= Terminated(data, PacketBytes(r.ep)) + more
    ensures AnsweredBy(s.link, Gather(s, r, Capacity(r), started).state.link, reply) && reply.req == r
    ensures reply.status == STATUS_OK ==> reply.payload == data
    ensures reply.status != STATUS_OK ==> reply.payload <= data
  {
    hide Inv, Flushed, PortOk, Gather, OpenUntil, Flatten, ShippedPackets, Terminated, NoDrops, Used, Consumes, Halt;
    hide Complete, Unfinished, PacketBytes;
    var status, took := GatherRefinesAssemble(s, r, Capacity(r), started);
    var t := Gather(s, r, Capacity(r), started).state;
    var mps := PacketBytes(r.ep);
    reply := RetSubmit(r, status, |[] + Flatten(took)|, [] + Flatten(took));
    assert [] + Flatten(took) == Flatten(took);
    GatherFollows(s, r, Capacity(r), started);
    GatherKeeps(s, r, Capacity(r), started);
    InvAt(s, r.ep);
    InvAt(t, r.ep);
    assert PortFollows(s.ports[r.ep], t.ports[r.ep], Used(s, t), r.ep, true, false);
    TookOffered(s.ports[r.ep], t.ports[r.ep], r.ep, took);
    var stream := Terminated(data, mps) + more;
    assert took <= stream;
    if status == STATUS_OK {
      assert stream == took + stream[|took|..];
      CompleteAssembles(took, stream[|took|..], Capacity(r), mps);
      SplitGatherInverse(data, more, Capacity(r), mps);
    } else {
      UnfinishedPrefix(took, data, more, Capacity(r), mps);
    }
  }
}
